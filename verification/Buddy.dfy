/**
 The allocator of small pieces of memory: pages split into halves, halves into quarters, and
 merged again when both sides are free.

 A block is a node of the forest of all possible blocks: the `index`-th block of its level,
 32 << level bytes wide. A node of level 7 is a page.
 */
module Buddy {
  import opened Lists
  import opened Wrappers

  /** BUDDY_MAX_LEVEL, and sizeof(struct bl_head). */
  const TOP: nat := 7
  const HEAD: nat := 12
  const PAGE: nat := 4096

  datatype Node = Node(level: nat, index: nat)

  function Up(n: Node): Node {
    Node(n.level + 1, n.index / 2)
  }

  function Left(n: Node): Node
    requires n.level > 0
  {
    Node(n.level - 1, 2 * n.index)
  }

  function Right(n: Node): Node
    requires n.level > 0
  {
    Node(n.level - 1, 2 * n.index + 1)
  }

  /** The other half of the block that `n` is a half of. */
  function Twin(n: Node): Node {
    Node(n.level, if n.index % 2 == 0 then n.index + 1 else n.index - 1)
  }

  // ---------------------------------------------------------------- where blocks are

  /** bl_blocksize. */
  function Size(level: nat): (s: nat)
    ensures s > 0
  {
    if level == 0 then 32 else 2 * Size(level - 1)
  }

  function Addr(n: Node): nat {
    n.index * Size(n.level)
  }

  ghost predicate Within(n: Node, x: nat) {
    Addr(n) <= x < Addr(n) + Size(n.level)
  }

  /** `m` is `n`, or `n` is a piece of it. */
  ghost predicate PieceOf(n: Node, m: Node)
    decreases m.level - n.level
  {
    n == m || (n.level < m.level && PieceOf(Up(n), m))
  }

  lemma SameSlot(i: nat, j: nat, s: nat, x: nat)
    requires s > 0 && i * s <= x < i * s + s && j * s <= x < j * s + s
    ensures i == j
  {
    assert i < j ==> (i + 1) * s <= j * s;
    assert j < i ==> (j + 1) * s <= i * s;
  }

  lemma UpWithin(n: Node, x: nat)
    requires Within(n, x)
    ensures Within(Up(n), x)
  {
    var s := Size(n.level);
    assert Addr(Up(n)) == (n.index / 2 * 2) * s;
    assert Addr(n) == (n.index / 2 * 2) * s + n.index % 2 * s;
  }

  /** Blocks are nested or apart. */
  lemma {:induction false} Nested(n: Node, m: Node, x: nat)
    requires n.level <= m.level && Within(n, x) && Within(m, x)
    ensures PieceOf(n, m)
    decreases m.level - n.level
  {
    if n.level == m.level {
      SameSlot(n.index, m.index, Size(n.level), x);
    } else {
      UpWithin(n, x);
      Nested(Up(n), m, x);
    }
  }

  lemma {:induction false} PieceWithin(n: Node, m: Node, x: nat)
    requires PieceOf(n, m) && Within(n, x)
    ensures Within(m, x)
    decreases m.level - n.level
  {
    if n != m {
      UpWithin(n, x);
      PieceWithin(Up(n), m, x);
    }
  }

  lemma HalvesAt(n: Node)
    requires n.level > 0
    ensures Addr(Left(n)) == Addr(n) && Addr(Right(n)) == Addr(n) + Size(n.level - 1)
  {
  }

  // ---------------------------------------------------------------- the invariant

  /** free: on the free lists; live: handed out; split: in use as two halves; loose: between the
      two, in the middle of an operation. */
  datatype Forest = Forest(free: set<Node>, live: set<Node>, split: set<Node>, loose: set<Node>)

  ghost predicate Tracked(f: Forest, n: Node) {
    n in f.free || n in f.live || n in f.split || n in f.loose
  }

  ghost predicate Apart(f: Forest) {
    && f.free !! f.live && f.free !! f.split && f.free !! f.loose
    && f.live !! f.split && f.live !! f.loose && f.split !! f.loose
  }

  ghost predicate Leveled(f: Forest) {
    && (forall n :: n in f.free || n in f.live ==> n.level < TOP)
    && (forall n :: n in f.split ==> 0 < n.level <= TOP)
    && (forall n :: n in f.loose ==> n.level <= TOP)
  }

  /** Exactly the halves of the split blocks exist, and whole pages. */
  ghost predicate Family(f: Forest) {
    forall n: Node :: n.level < TOP ==> (Tracked(f, n) <==> Up(n) in f.split)
  }

  /** Two halves of one block are never both free. */
  ghost predicate NoPair(f: Forest) {
    forall n :: n in f.free ==> Twin(n) !in f.free
  }

  ghost predicate Inv(f: Forest) {
    Apart(f) && Leveled(f) && Family(f) && NoPair(f)
  }

  ghost predicate Settled(f: Forest) {
    Inv(f) && f.loose == {}
  }

  // ---------------------------------------------------------------- what it means

  lemma {:induction false} WholesSplit(f: Forest, n: Node, m: Node)
    requires Inv(f) && Tracked(f, n) && PieceOf(n, m) && n != m && m.level <= TOP
    ensures m in f.split
    decreases m.level - n.level
  {
    if Up(n) != m { WholesSplit(f, Up(n), m); }
  }

  /** No two blocks overlap. */
  lemma Disjoint(f: Forest, n: Node, m: Node, x: nat)
    requires Inv(f) && Tracked(f, n) && Tracked(f, m) && n !in f.split && m !in f.split
    requires Within(n, x) && Within(m, x)
    ensures n == m
  {
    if n.level <= m.level {
      Nested(n, m, x);
      if n != m { WholesSplit(f, n, m); }
    } else {
      Nested(m, n, x);
      WholesSplit(f, m, n);
    }
  }

  /** Blocks leave no gap: in a split block, every byte is in a block. */
  lemma {:induction false} Covered(f: Forest, m: Node, x: nat) returns (n: Node)
    requires Inv(f) && m in f.split && Within(m, x)
    ensures Tracked(f, n) && n !in f.split && Within(n, x) && PieceOf(n, m)
    decreases m.level
  {
    HalvesAt(m);
    n := if x < Addr(m) + Size(m.level - 1) then Left(m) else Right(m);
    assert Up(n) == m && Tracked(f, n);
    if n in f.split {
      var h := n;
      n := Covered(f, h, x);
      PieceTrans(n, h, m);
    }
  }

  lemma {:induction false} PieceTrans(n: Node, h: Node, m: Node)
    requires PieceOf(n, h) && PieceOf(h, m)
    ensures PieceOf(n, m)
    decreases h.level - n.level
  {
    if n != h {
      PieceTrans(Up(n), h, m);
    }
  }

  /** A split block has something live in it: had all of it been freed, it would be one block. */
  lemma {:induction false} LiveIn(f: Forest, m: Node) returns (n: Node)
    requires Settled(f) && m in f.split
    ensures n in f.live && PieceOf(n, m)
    decreases m.level
  {
    var l, r := Left(m), Right(m);
    assert Up(l) == m && Up(r) == m && Twin(l) == r;
    assert Tracked(f, l) && Tracked(f, r);
    var h := if l in f.free then r else l;
    n := h;
    if h in f.split {
      n := LiveIn(f, h);
      PieceTrans(n, h, m);
    }
  }

  function PageOf(n: Node): nat
    decreases TOP - n.level
  {
    if n.level >= TOP then n.index else PageOf(Up(n))
  }

  lemma {:induction false} PageHolds(n: Node)
    requires n.level <= TOP
    ensures PieceOf(n, Node(TOP, PageOf(n)))
    decreases TOP - n.level
  {
    if n.level < TOP { PageHolds(Up(n)); }
  }

  lemma {:induction false} PieceSamePage(n: Node, m: Node)
    requires PieceOf(n, m) && m.level <= TOP
    ensures PageOf(n) == PageOf(m)
    decreases m.level - n.level
  {
    if n != m { PieceSamePage(Up(n), m); }
  }

  /** A page belongs to the allocator exactly as long as it holds a live block. */
  lemma PagesExact(f: Forest, p: nat)
    requires Settled(f)
    ensures Node(TOP, p) in f.split <==> exists n :: n in f.live && PageOf(n) == p
  {
    if Node(TOP, p) in f.split {
      var n := LiveIn(f, Node(TOP, p));
      PieceSamePage(n, Node(TOP, p));
    }
    forall n | n in f.live && PageOf(n) == p ensures Node(TOP, p) in f.split {
      PageHolds(n);
      WholesSplit(f, n, Node(TOP, p));
    }
  }

  // ---------------------------------------------------------------- the steps

  function NewPage(f: Forest, p: nat): Forest {
    f.(loose := {Node(TOP, p)})
  }

  function Take(f: Forest, n: Node): Forest {
    f.(free := f.free - {n}, loose := {n})
  }

  function Halve(f: Forest, n: Node): Forest
    requires n.level > 0
  {
    f.(split := f.split + {n}, free := f.free + {Right(n)}, loose := {Left(n)})
  }

  function HandOut(f: Forest, n: Node): Forest {
    f.(live := f.live + {n}, loose := {})
  }

  function GiveBack(f: Forest, n: Node): Forest {
    f.(live := f.live - {n}, loose := {n})
  }

  function Shelve(f: Forest, n: Node): Forest {
    f.(free := f.free + {n}, loose := {})
  }

  function Merge(f: Forest, n: Node): Forest {
    f.(free := f.free - {Twin(n)}, split := f.split - {Up(n)}, loose := {Up(n)})
  }

  function DropPage(f: Forest): Forest {
    f.(loose := {})
  }

  lemma NewPageKeeps(f: Forest, p: nat)
    requires Settled(f) && Node(TOP, p) !in f.split
    ensures Inv(NewPage(f, p))
  {
    var g := NewPage(f, p);
    forall n: Node | n.level < TOP ensures Tracked(g, n) <==> Up(n) in g.split { assert Tracked(f, n) <==> Up(n) in f.split; }
  }

  lemma TakeKeeps(f: Forest, n: Node)
    requires Settled(f) && n in f.free
    ensures Inv(Take(f, n))
  {
    var g := Take(f, n);
    forall m: Node | m.level < TOP ensures Tracked(g, m) <==> Up(m) in g.split { assert Tracked(f, m) <==> Up(m) in f.split; }
  }

  lemma HalveKeeps(f: Forest, n: Node)
    requires Inv(f) && f.loose == {n} && n.level > 0
    ensures Inv(Halve(f, n))
  {
    var l, r := Left(n), Right(n);
    assert Up(l) == n && Up(r) == n;
    assert !Tracked(f, l) && !Tracked(f, r);
    HalveFamily(f, n);
    HalvePair(f, n);
    hide Family, NoPair;
  }

  lemma HalveFamily(f: Forest, n: Node)
    requires Family(f) && f.loose == {n} && n.level > 0
    ensures Family(Halve(f, n))
  {
    var g := Halve(f, n);
    forall m: Node | m.level < TOP ensures Tracked(g, m) <==> Up(m) in g.split {
      assert Tracked(f, m) <==> Up(m) in f.split;
      assert Up(m) == n <==> m == Left(n) || m == Right(n);
    }
  }

  lemma HalvePair(f: Forest, n: Node)
    requires NoPair(f) && n.level > 0 && Left(n) !in f.free
    ensures NoPair(Halve(f, n))
  {
    var g, l, r := Halve(f, n), Left(n), Right(n);
    assert Twin(r) == l;
    forall m | m in g.free ensures Twin(m) !in g.free {
      assert Twin(m) == r ==> m == l;
    }
  }

  lemma HandOutKeeps(f: Forest, n: Node)
    requires Inv(f) && f.loose == {n} && n.level < TOP
    ensures Settled(HandOut(f, n))
  {
    var g := HandOut(f, n);
    forall m: Node | m.level < TOP ensures Tracked(g, m) <==> Up(m) in g.split { assert Tracked(f, m) <==> Up(m) in f.split; }
  }

  lemma GiveBackKeeps(f: Forest, n: Node)
    requires Settled(f) && n in f.live
    ensures Inv(GiveBack(f, n))
  {
    var g := GiveBack(f, n);
    forall m: Node | m.level < TOP ensures Tracked(g, m) <==> Up(m) in g.split { assert Tracked(f, m) <==> Up(m) in f.split; }
  }

  lemma ShelveKeeps(f: Forest, n: Node)
    requires Inv(f) && f.loose == {n} && n.level < TOP && Twin(n) !in f.free
    ensures Settled(Shelve(f, n))
  {
    var g := Shelve(f, n);
    assert Twin(Twin(n)) == n && Twin(n) != n;
    forall m: Node | m.level < TOP ensures Tracked(g, m) <==> Up(m) in g.split { assert Tracked(f, m) <==> Up(m) in f.split; }
    forall m | m in g.free ensures Twin(m) !in g.free { assert Twin(m) == n ==> m == Twin(n); }
  }

  lemma MergeKeeps(f: Forest, n: Node)
    requires Inv(f) && f.loose == {n} && n.level < TOP && Twin(n) in f.free
    ensures Inv(Merge(f, n))
  {
    var g := Merge(f, n);
    assert Tracked(f, n) && Up(n) in f.split && Up(Twin(n)) == Up(n);
    forall m: Node | m.level < TOP ensures Tracked(g, m) <==> Up(m) in g.split {
      assert Tracked(f, m) <==> Up(m) in f.split;
      assert Up(m) == Up(n) <==> m == n || m == Twin(n);
    }
  }

  lemma DropPageKeeps(f: Forest, p: nat)
    requires Inv(f) && f.loose == {Node(TOP, p)}
    ensures Settled(DropPage(f))
  {
    var g := DropPage(f);
    forall m: Node | m.level < TOP ensures Tracked(g, m) <==> Up(m) in g.split { assert Tracked(f, m) <==> Up(m) in f.split; }
  }

  // ---------------------------------------------------------------- lists and headers

  /** What the memory holds: the free list of each level, and the level in each block's header. */
  datatype Memory = Memory(lists: seq<seq<nat>>, header: map<nat, nat>)

  /** `at` finds the block that starts at an address. */
  ghost predicate AtOk(f: Forest, at: map<nat, Node>) {
    && (forall n :: n in f.free || n in f.live || n in f.loose ==> Addr(n) in at && at[Addr(n)] == n)
    && (forall a :: a in at ==> Addr(at[a]) == a && (at[a] in f.free || at[a] in f.live || at[a] in f.loose))
  }

  ghost predicate HeadersOk(m: Memory, f: Forest) {
    forall n :: n in f.free || n in f.live ==> Addr(n) in m.header && m.header[Addr(n)] == n.level
  }

  ghost predicate ListsOk(m: Memory, f: Forest, at: map<nat, Node>) {
    && |m.lists| == TOP + 1
    && forall l :: 0 <= l <= TOP ==> ListOk(m.lists[l], l, f, at)
  }

  ghost predicate ListOk(list: seq<nat>, l: nat, f: Forest, at: map<nat, Node>) {
    && NoDup(list)
    && forall a :: a in list <==> a in at && at[a] in f.free && at[a].level == l
  }

  ghost predicate Rel(m: Memory, f: Forest, at: map<nat, Node>) {
    Inv(f) && AtOk(f, at) && HeadersOk(m, f) && ListsOk(m, f, at)
  }

  /** Exclusive or, bit by bit. */
  function Xor(a: nat, b: nat): nat {
    if a == 0 then b else if b == 0 then a else 2 * Xor(a / 2, b / 2) + if a % 2 == b % 2 then 0 else 1
  }

  /** 1 << k. */
  function Pow(k: nat): (p: nat)
    ensures p > 0
  {
    if k == 0 then 1 else 2 * Pow(k - 1)
  }

  /** get_buddy. */
  function Flip(a: nat, level: nat): nat {
    Xor(a, Pow(level + 5))
  }

  /** Exclusive or with one bit turns it over. */
  lemma {:induction false} XorTurns(a: nat, k: nat)
    ensures Xor(a, Pow(k)) == if a / Pow(k) % 2 == 0 then a + Pow(k) else a - Pow(k)
  {
    if k == 0 {
      assert Xor(a / 2, 0) == a / 2;
    } else {
      XorTurns(a / 2, k - 1);
      HalfDiv(a, Pow(k - 1));
      XorStep(a, Pow(k - 1));
      hide Xor;
    }
  }

  lemma XorStep(a: nat, p: nat)
    requires p > 0
    ensures Xor(a, 2 * p) == 2 * Xor(a / 2, p) + a % 2
  {
    assert 2 * p / 2 == p && 2 * p % 2 == 0;
  }

  lemma HalfDiv(a: nat, p: nat)
    requires p > 0
    ensures a / (2 * p) == (a / 2) / p
  {
    var q := (a / 2) / p;
    Euclid(a / 2, p);
    Products(q, p);
    SameQuotient(a, 2 * p, q);
  }

  lemma Euclid(a: nat, p: nat)
    requires p > 0
    ensures a / p * p <= a < a / p * p + p
  {
  }

  lemma Products(q: nat, p: nat)
    ensures q * (2 * p) == 2 * (q * p)
  {
  }

  lemma SameQuotient(a: nat, s: nat, q: nat)
    requires s > 0 && q * s <= a < q * s + s
    ensures a / s == q
  {
    Euclid(a, s);
    SameSlot(q, a / s, s, a);
  }

  lemma {:induction false} SizeIsPow(level: nat)
    ensures Size(level) == Pow(level + 5)
  {
    if level == 0 {
      assert Pow(2) == 4 && Pow(4) == 16;
    } else {
      SizeIsPow(level - 1);
    }
  }

  /** The address that get_buddy computes is the other half's, and the lower of the two is the
      whole's. */
  lemma FlipIsTwin(n: Node)
    ensures Flip(Addr(n), n.level) == Addr(Twin(n))
    ensures n.index % 2 == 0 ==> Addr(n) == Addr(Up(n)) && Addr(n) < Addr(Twin(n))
    ensures n.index % 2 == 1 ==> Addr(Twin(n)) == Addr(Up(n)) && Addr(Twin(n)) < Addr(n)
  {
    hide Xor, Pow;
    XorTurns(Addr(n), n.level + 5);
    SizeIsPow(n.level);
    DivSlot(n.index, Size(n.level));
    Slots(n.index, Size(n.level));
  }

  lemma Slots(i: nat, s: nat)
    ensures i % 2 == 0 ==> (i + 1) * s == i * s + s && i / 2 * (2 * s) == i * s
    ensures i % 2 == 1 ==> (i - 1) * s == i * s - s && i / 2 * (2 * s) == (i - 1) * s
  {
  }

  lemma DivSlot(i: nat, s: nat)
    requires s > 0
    ensures i * s / s == i
  {
    var q := i * s / s;
    SameSlot(i, q, s, i * s);
  }

  // ---------------------------------------------------------------- the steps, in memory

  function Pop(m: Memory, l: nat): Memory
    requires l < |m.lists| && m.lists[l] != []
  {
    m.(lists := m.lists[l := m.lists[l][1..]])
  }

  function Push(m: Memory, l: nat, a: nat): Memory
    requires l < |m.lists|
  {
    m.(lists := m.lists[l := [a] + m.lists[l]])
  }

  function Unlink(m: Memory, l: nat, a: nat): Memory
    requires l < |m.lists|
  {
    m.(lists := m.lists[l := Without(m.lists[l], a)])
  }

  function Mark(m: Memory, a: nat, level: nat): Memory {
    m.(header := m.header[a := level])
  }

  lemma TakeRel(m: Memory, f: Forest, at: map<nat, Node>, l: nat)
    requires Rel(m, f, at) && f.loose == {} && l <= TOP && m.lists[l] != []
    ensures m.lists[l][0] in at && at[m.lists[l][0]] in f.free && at[m.lists[l][0]].level == l
    ensures Rel(Pop(m, l), Take(f, at[m.lists[l][0]]), at)
  {
    var a := m.lists[l][0];
    assert ListOk(m.lists[l], l, f, at) && a in m.lists[l];
    TakeKeeps(f, at[a]);
    var m', f' := Pop(m, l), Take(f, at[a]);
    forall k | 0 <= k <= TOP ensures ListOk(m'.lists[k], k, f', at) {
      assert ListOk(m.lists[k], k, f, at);
    }
  }

  /** No block starts inside a loose one, or inside a page that is not split. */
  lemma Fresh(f: Forest, at: map<nat, Node>, n: Node, x: nat)
    requires Inv(f) && AtOk(f, at) && n in f.loose && Within(n, x) && x != Addr(n)
    ensures x !in at
  {
    if x in at {
      Disjoint(f, at[x], n, x);
    }
  }

  lemma FreshPage(f: Forest, at: map<nat, Node>, p: nat)
    requires Settled(f) && AtOk(f, at) && Node(TOP, p) !in f.split
    ensures Addr(Node(TOP, p)) !in at
  {
    var x := Addr(Node(TOP, p));
    if x in at {
      Nested(at[x], Node(TOP, p), x);
      WholesSplit(f, at[x], Node(TOP, p));
    }
  }

  lemma NewPageRel(m: Memory, f: Forest, at: map<nat, Node>, p: nat)
    requires Rel(m, f, at) && f.loose == {} && Node(TOP, p) !in f.split
    ensures Rel(m, NewPage(f, p), at[Addr(Node(TOP, p)) := Node(TOP, p)])
  {
    NewPageKeeps(f, p);
    FreshPage(f, at, p);
    hide Addr, Inv, NoDup;
    var f', at' := NewPage(f, p), at[Addr(Node(TOP, p)) := Node(TOP, p)];
    forall k | 0 <= k <= TOP ensures ListOk(m.lists[k], k, f', at') { assert ListOk(m.lists[k], k, f, at); }
  }

  lemma HalveRel(m: Memory, f: Forest, at: map<nat, Node>, n: Node)
    requires Rel(m, f, at) && f.loose == {n} && n.level > 0 && m.lists[n.level - 1] == []
    ensures var a, b, l := Addr(n), Addr(Right(n)), n.level - 1;
            Rel(Push(Mark(Mark(m, a, l), b, l), l, b), Halve(f, n), at[a := Left(n)][b := Right(n)])
  {
    var a, b, l := Addr(n), Addr(Right(n)), n.level - 1;
    HalveKeeps(f, n);
    HalvesAt(n);
    Fresh(f, at, n, b);
    HalveLists(m, f, at, n);
    HalveAt(f, at, n);
    HalveHeaders(m, f, at, n);
  }

  lemma HalveAt(f: Forest, at: map<nat, Node>, n: Node)
    requires AtOk(f, at) && f.loose == {n} && n.level > 0 && Addr(Left(n)) == Addr(n) != Addr(Right(n)) && Addr(Right(n)) !in at
    requires n !in f.free && n !in f.live
    ensures AtOk(Halve(f, n), at[Addr(n) := Left(n)][Addr(Right(n)) := Right(n)])
  {
    hide Addr;
    assert Addr(n) in at && at[Addr(n)] == n;
  }

  lemma HalveHeaders(m: Memory, f: Forest, at: map<nat, Node>, n: Node)
    requires AtOk(f, at) && HeadersOk(m, f) && f.loose == {n} && n.level > 0 && Addr(Right(n)) !in at
    requires n !in f.free && n !in f.live
    ensures var a, b, l := Addr(n), Addr(Right(n)), n.level - 1;
            |m.lists| > l ==> HeadersOk(Push(Mark(Mark(m, a, l), b, l), l, b), Halve(f, n))
  {
    hide Addr;
    forall k | k in f.free || k in f.live ensures Addr(k) != Addr(n) && Addr(k) != Addr(Right(n)) {
      assert at[Addr(k)] == k;
    }
  }

  lemma HalveLists(m: Memory, f: Forest, at: map<nat, Node>, n: Node)
    requires AtOk(f, at) && ListsOk(m, f, at) && f.loose == {n} && 0 < n.level <= TOP && m.lists[n.level - 1] == []
    requires Addr(Right(n)) !in at && n !in f.free && Left(n) !in f.free
    ensures var a, b, l := Addr(n), Addr(Right(n)), n.level - 1;
            ListsOk(Push(Mark(Mark(m, a, l), b, l), l, b), Halve(f, n), at[a := Left(n)][b := Right(n)])
  {
    hide Addr;
    var a, b, l := Addr(n), Addr(Right(n)), n.level - 1;
    var m', f', at' := Push(Mark(Mark(m, a, l), b, l), l, b), Halve(f, n), at[a := Left(n)][b := Right(n)];
    assert at[a] == n;
    NoDupPrepend([], b);
    forall k | 0 <= k <= TOP ensures ListOk(m'.lists[k], k, f', at') {
      assert ListOk(m.lists[k], k, f, at);
      hide NoDup;
      assert m'.lists[k] == if k == l then [b] + m.lists[l] else m.lists[k];
      forall c ensures c in m'.lists[k] <==> c in at' && at'[c] in f'.free && at'[c].level == k {
        assert c in m.lists[k] <==> c in at && at[c] in f.free && at[c].level == k;
      }
    }
  }

  lemma ShelveRel(m: Memory, f: Forest, at: map<nat, Node>, n: Node)
    requires Rel(m, f, at) && f.loose == {n} && n.level < TOP && Twin(n) !in f.free
    requires Addr(n) in m.header && m.header[Addr(n)] == n.level
    ensures Rel(Push(m, n.level, Addr(n)), Shelve(f, n), at) && Settled(Shelve(f, n))
  {
    ShelveKeeps(f, n);
    hide Addr, Inv;
    var a := Addr(n);
    var m', f' := Push(m, n.level, a), Shelve(f, n);
    assert at[a] == n;
    forall k | 0 <= k <= TOP ensures ListOk(m'.lists[k], k, f', at) {
      assert ListOk(m.lists[k], k, f, at);
      if k == n.level { NoDupPrepend(m.lists[k], a); }
      hide NoDup;
    }
  }

  /** Where blocks start once `n` and its twin are one. */
  ghost function Merged(at: map<nat, Node>, n: Node): map<nat, Node> {
    (at - {Addr(n), Addr(Twin(n))})[Addr(Up(n)) := Up(n)]
  }

  lemma MergeRel(m: Memory, f: Forest, at: map<nat, Node>, n: Node)
    requires Rel(m, f, at) && f.loose == {n} && n.level < TOP && Twin(n) in f.free
    ensures Rel(Mark(Unlink(m, n.level, Addr(Twin(n))), Addr(Up(n)), n.level + 1), Merge(f, n), Merged(at, n)) && Up(n) in f.split
  {
    MergeKeeps(f, n);
    FlipIsTwin(n);
    assert n !in f.free && n !in f.live && Twin(n) !in f.live;
    assert Tracked(f, n) && Up(n) in f.split && Up(n) !in f.free;
    hide Addr, Inv;
    MergeAt(f, at, n);
    MergeHeaders(m, f, at, n);
    MergeLists(m, f, at, n);
  }

  ghost predicate Mergeable(f: Forest, n: Node) {
    && f.loose == {n} && Twin(n) in f.free && n !in f.free && n !in f.live && Twin(n) !in f.live
    && (Addr(Up(n)) == Addr(n) || Addr(Up(n)) == Addr(Twin(n)))
  }

  lemma MergeAt(f: Forest, at: map<nat, Node>, n: Node)
    requires AtOk(f, at) && Mergeable(f, n)
    ensures AtOk(Merge(f, n), Merged(at, n))
  {
    hide Addr;
    assert at[Addr(n)] == n && at[Addr(Twin(n))] == Twin(n);
  }

  lemma MergeHeaders(m: Memory, f: Forest, at: map<nat, Node>, n: Node)
    requires AtOk(f, at) && HeadersOk(m, f) && Mergeable(f, n)
    ensures n.level < |m.lists| ==> HeadersOk(Mark(Unlink(m, n.level, Addr(Twin(n))), Addr(Up(n)), n.level + 1), Merge(f, n))
  {
    hide Addr;
    forall k | k in f.live || (k in f.free && k != Twin(n)) ensures Addr(k) != Addr(n) && Addr(k) != Addr(Twin(n)) {
      assert at[Addr(k)] == k && at[Addr(n)] == n && at[Addr(Twin(n))] == Twin(n);
    }
  }

  lemma MergeLists(m: Memory, f: Forest, at: map<nat, Node>, n: Node)
    requires AtOk(f, at) && ListsOk(m, f, at) && Mergeable(f, n) && n.level < TOP && Up(n) !in f.free
    ensures ListsOk(Mark(Unlink(m, n.level, Addr(Twin(n))), Addr(Up(n)), n.level + 1), Merge(f, n), Merged(at, n))
  {
    hide Addr;
    var t := Addr(Twin(n));
    assert at[Addr(n)] == n && at[t] == Twin(n);
    var m', f', at' := Mark(Unlink(m, n.level, t), Addr(Up(n)), n.level + 1), Merge(f, n), Merged(at, n);
    forall k | 0 <= k <= TOP ensures ListOk(m'.lists[k], k, f', at') {
      assert ListOk(m.lists[k], k, f, at);
      hide NoDup;
      assert m'.lists[k] == if k == n.level then Without(m.lists[k], t) else m.lists[k];
    }
  }

  lemma OutRel(m: Memory, f: Forest, at: map<nat, Node>, n: Node)
    requires Rel(m, f, at) && f.loose == {n} && n.level < TOP && Addr(n) in m.header && m.header[Addr(n)] == n.level
    ensures Rel(m, HandOut(f, n), at) && Settled(HandOut(f, n))
    ensures n !in f.live && forall k :: k in f.live ==> Addr(k) != Addr(n)
  {
    HandOutKeeps(f, n);
    assert n !in f.live;
    hide Addr, Inv, NoDup;
    forall k | 0 <= k <= TOP ensures ListOk(m.lists[k], k, HandOut(f, n), at) { assert ListOk(m.lists[k], k, f, at); }
  }

  lemma BackRel(m: Memory, f: Forest, at: map<nat, Node>, n: Node)
    requires Rel(m, f, at) && f.loose == {} && n in f.live
    ensures Rel(m, GiveBack(f, n), at) && Addr(n) in m.header && m.header[Addr(n)] == n.level && n.level < TOP
  {
    GiveBackKeeps(f, n);
    hide Addr, Apart, Family, NoPair, NoDup;
    forall k | 0 <= k <= TOP ensures ListOk(m.lists[k], k, GiveBack(f, n), at) { assert ListOk(m.lists[k], k, f, at); }
  }

  lemma DropRel(m: Memory, f: Forest, at: map<nat, Node>, p: nat)
    requires Rel(m, f, at) && f.loose == {Node(TOP, p)}
    ensures Rel(m, DropPage(f), at - {Addr(Node(TOP, p))}) && Settled(DropPage(f)) && Node(TOP, p) !in f.split
  {
    DropPageKeeps(f, p);
    hide Addr, Inv, NoDup;
    var a := Addr(Node(TOP, p));
    assert at[a] == Node(TOP, p);
    var f', at' := DropPage(f), at - {a};
    forall k | 0 <= k <= TOP ensures ListOk(m.lists[k], k, f', at') { assert ListOk(m.lists[k], k, f, at); }
  }

  // ---------------------------------------------------------------- the allocator

  /** Every page is free, cut into blocks, or handed out whole. */
  ghost predicate PoolOk(all: set<nat>, spare: seq<nat>, pages: set<nat>, whole: set<nat>) {
    && NoDup(spare) && pages !! whole
    && (forall p :: p in spare ==> p !in pages && p !in whole)
    && (forall p :: p in all <==> p in spare || p in pages || p in whole)
  }

  ghost predicate PagesOk(pages: set<nat>, f: Forest) {
    forall p :: p in pages <==> Node(TOP, p) in f.split || Node(TOP, p) in f.loose
  }

  /** The callers' blocks, by the addresses they were given: just behind the header, or a page. */
  ghost predicate HeldOk(held: map<nat, Node>, f: Forest, whole: set<nat>) {
    && (forall a :: a in held ==> var n := held[a];
        (n in f.live && a == Addr(n) + HEAD) || (n.level == TOP && n.index in whole && a == Addr(n)))
    && (forall n :: n in f.live ==> Addr(n) + HEAD in held && held[Addr(n) + HEAD] == n)
    && (forall p :: p in whole ==> Addr(Node(TOP, p)) in held && held[Addr(Node(TOP, p))] == Node(TOP, p))
  }

  /** The smallest level whose blocks hold `size` bytes. */
  predicate Fit(level: nat, size: nat) {
    level <= TOP && size <= Size(level) && (level > 0 ==> Size(level - 1) < size)
  }

  /** Nothing is left to cut a block of `size` bytes from. */
  ghost predicate NoRoom(lists: seq<seq<nat>>, spare: seq<nat>, size: nat) {
    spare == [] && forall l :: 0 <= l < |lists| && size <= Size(l) ==> lists[l] == []
  }

  /** The block is cut from the first free one of the lowest level that has one and is large enough, or from a
      page when none has. */
  ghost predicate FoundAt(lists: seq<seq<nat>>, spare: seq<nat>, size: nat, m: nat, a: nat, left: seq<nat>) {
    && |lists| == TOP + 1 && m <= TOP && size <= Size(m) && (forall l :: 0 <= l < m && size <= Size(l) ==> lists[l] == [])
    && if m < TOP then lists[m] != [] && a == lists[m][0] && left == spare
       else spare != [] && a == spare[0] * PAGE && left == spare[1..]
  }

  ghost predicate CutFrom(lists: seq<seq<nat>>, spare: seq<nat>, size: nat, a: nat, left: seq<nat>) {
    exists m: nat :: FoundAt(lists, spare, size, m, a, left)
  }

  lemma FoundNow(lists: seq<seq<nat>>, spare: seq<nat>, size: nat, m: nat, a: nat, left: seq<nat>)
    requires FoundAt(lists, spare, size, m, a, left)
    ensures CutFrom(lists, spare, size, a, left)
  {
  }

  lemma LeastFit(level: nat, size: nat)
    requires Fit(level, size)
    ensures forall l :: 0 <= l < level ==> Size(l) < size
  {
    forall l | 0 <= l < level ensures Size(l) < size { Grows(l, level - 1); }
  }

  lemma FoundAbove(lists: seq<seq<nat>>, spare: seq<nat>, size: nat, level: nat, a: nat, left: seq<nat>)
    requires Fit(level, size) && level < TOP && |lists| == TOP + 1 && lists[level] == [] && CutFrom(lists, spare, Size(level + 1), a, left)
    ensures CutFrom(lists, spare, size, a, left)
  {
    var m: nat :| FoundAt(lists, spare, Size(level + 1), m, a, left);
    LeastFit(level, size);
    Doubles(level);
    forall l | 0 <= l < m && size <= Size(l) ensures lists[l] == [] {
      if l > level { Grows(level + 1, l); }
    }
    assert FoundAt(lists, spare, size, m, a, left);
  }

  lemma Doubles(l: nat)
    ensures Size(l + 1) == 2 * Size(l)
  {
  }

  lemma {:induction false} Grows(k: nat, l: nat)
    requires k <= l
    ensures Size(k) <= Size(l)
    decreases l
  {
    if k < l { Grows(k, l - 1); }
  }

  lemma TopIsPage()
    ensures Size(TOP) == PAGE && Size(TOP - 1) == 2048
  {
    assert Size(2) == 128;
    assert Size(4) == 512;
    assert Size(6) == 2048;
  }

  lemma PageAddr(n: Node, x: nat)
    requires n.level <= TOP && Within(n, x)
    ensures x / PAGE == PageOf(n)
  {
    PageHolds(n);
    PieceWithin(n, Node(TOP, PageOf(n)), x);
    TopIsPage();
  }

  class Allocator {
    var lists: seq<seq<nat>>
    var header: map<nat, nat>
    var pages: set<nat>
    var spare: seq<nat>
    var whole: set<nat>
    ghost const all: set<nat>
    ghost var f: Forest
    ghost var at: map<nat, Node>
    ghost var held: map<nat, Node>

    function M(): Memory
      reads this
    {
      Memory(lists, header)
    }

    ghost predicate Good()
      reads this
    {
      Rel(M(), f, at) && PagesOk(pages, f) && PoolOk(all, spare, pages, whole)
    }

    ghost predicate Valid()
      reads this
    {
      Good() && f.loose == {} && HeldOk(held, f, whole)
    }

    /** buddy_low_init, with the free pages given. */
    constructor (free: seq<nat>)
      requires NoDup(free)
      ensures Valid() && held == map[] && all == Elements(free)
    {
      lists := [[], [], [], [], [], [], [], []];
      header, pages, spare, whole := map[], {}, free, {};
      all := Elements(free);
      f, at, held := Forest({}, {}, {}, {}), map[], map[];
    }

    method LevelFor(size: nat) returns (level: nat)
      requires 0 < size <= PAGE
      ensures Fit(level, size)
    {
      TopIsPage();
      level := 0;
      while Size(level) < size
        invariant level <= TOP && (level > 0 ==> Size(level - 1) < size)
        decreases TOP - level
      {
        level := level + 1;
      }
    }

    /** A page for the allocator, from the page allocator. */
    method TakePage() returns (r: Option<nat>, ghost n: Node)
      requires Good() && f.loose == {}
      modifies this`pages, this`spare, this`f, this`at
      ensures Good() && f.live == old(f.live)
      ensures r == None ==> f == old(f) && spare == []
      ensures r.Some? ==> f.loose == {n} && n.level == TOP && r.value == Addr(n)
      ensures r.Some? ==> old(spare) != [] && r.value == old(spare)[0] * PAGE && spare == old(spare)[1..]
    {
      hide Rel, PagesOk, PoolOk;
      n := Node(TOP, 0);
      if spare == [] { return None, n; }
      var p := spare[0];
      n := Node(TOP, p);
      PoolTake(all, spare, pages, whole, f);
      NewPageRel(M(), f, at, p);
      PagesNew(pages, f, p);
      TopIsPage();
      spare := spare[1..];
      pages := pages + {p};
      f, at := NewPage(f, p), at[Addr(n) := n];
      return Some(p * PAGE), n;
    }

    /** The head of a free list that is not empty. */
    method TakeFirst(level: nat) returns (r: Option<nat>, ghost n: Node)
      requires Good() && f.loose == {} && level < TOP && level < |lists| && lists[level] != []
      modifies this`lists, this`f
      ensures Good() && f.live == old(f.live)
      ensures r.Some? && f.loose == {n} && n.level == level && r.value == Addr(n)
      ensures r.value in header && header[r.value] == level
      ensures r.value == old(lists)[level][0] && lists == old(lists)[level := old(lists)[level][1..]]
    {
      hide Rel, PagesOk, PoolOk;
      TakeRel(M(), f, at, level);
      r, n := Some(lists[level][0]), at[lists[level][0]];
      FreeAt(M(), f, at, n, r.value);
      PagesSame(pages, f, Take(f, n));
      lists := lists[level := lists[level][1..]];
      f := Take(f, n);
    }

    /** A block in two: the lower half is kept, the upper half goes onto its free list. */
    method Cut(a: nat, ghost n: Node, level: nat) returns (ghost c: Node)
      requires Good() && f.loose == {n} && a == Addr(n) && n.level == level + 1 <= TOP && level < |lists| && lists[level] == []
      modifies this`lists, this`header, this`f, this`at
      ensures Good() && f.live == old(f.live)
      ensures f.loose == {c} && c.level == level && a == Addr(c) && a in header && header[a] == level
      ensures lists == old(lists)[level := lists[level]]
    {
      hide Rel, PagesOk, PoolOk, Addr;
      c := Left(n);
      HalveRel(M(), f, at, n);
      HalvesAt(n);
      FlipIsTwin(c);
      assert Twin(c) == Right(n);
      PagesSame(pages, f, Halve(f, n));
      var buddy: nat := Flip(a, level);
      assert [buddy] == [buddy] + lists[level];
      header := header[a := level];
      header := header[buddy := level];
      lists := lists[level := [buddy]];
      at := at[a := Left(n)][buddy := Right(n)];
      f := Halve(f, n);
    }

    /** allocate: a block of the smallest size that does, cut from a bigger one when there is none.
        It fails only when no free block is big enough and no page is left. */
    method Allocate(size: nat) returns (r: Option<nat>, ghost n: Node)
      requires Good() && f.loose == {} && 0 < size <= PAGE
      modifies this`lists, this`header, this`pages, this`spare, this`f, this`at
      ensures Good() && f.live == old(f.live)
      ensures r == None ==> M() == old(M()) && f == old(f) && NoRoom(lists, spare, size)
      ensures r.Some? ==> f.loose == {n} && r.value == Addr(n) && Fit(n.level, size)
      ensures r.Some? && n.level < TOP ==> r.value in header && header[r.value] == n.level
      ensures r.Some? ==> CutFrom(old(lists), old(spare), size, r.value, spare)
      ensures |lists| == |old(lists)| == TOP + 1 && forall l :: 0 <= l <= TOP && Size(l) < size ==> lists[l] == old(lists[l])
      decreases PAGE - size
    {
      hide Rel, PagesOk, PoolOk, Addr, CutFrom;
      var level := LevelFor(size);
      ListCount(M(), f, at);
      n := Node(0, 0);
      if level == TOP {
        Nothing(M(), f, at, size);
        LeastFit(level, size);
        r, n := TakePage();
        if r.Some? { FoundNow(old(lists), old(spare), size, TOP, r.value, spare); }
        return;
      }
      LeastFit(level, size);
      if lists[level] != [] {
        r, n := TakeFirst(level);
        FoundNow(old(lists), old(spare), size, level, r.value, spare);
        return;
      }
      TopIsPage();
      Grows(level + 1, TOP);
      Next(level, size);
      r, n := Allocate(Size(level + 1));
      if r.Some? {
        FitOwn(n.level, level + 1);
        FoundAbove(old(lists), old(spare), size, level, r.value, spare);
        n := Cut(r.value, n, level);
      }
    }

    /** deallocate: merged with its twin as far as the twins are free; a page goes back. */
    method Deallocate(a: nat, ghost n: Node)
      requires Good() && f.loose == {n} && a == Addr(n) && n.level < TOP && a in header && header[a] == n.level
      modifies this`lists, this`header, this`pages, this`spare, this`f, this`at
      ensures Good() && f.loose == {} && f.live == old(f.live)
      decreases TOP - n.level
    {
      hide Rel, PagesOk, PoolOk, Addr;
      ListCount(M(), f, at);
      FlipIsTwin(n);
      var level := header[a];
      var buddy: nat := Flip(a, level);
      var found := InList(lists[level], buddy);
      Listed(M(), f, at, Twin(n));
      if found {
        MergeRel(M(), f, at, n);
        PagesSame(pages, f, Merge(f, n));
        lists := lists[level := Without(lists[level], buddy)];
        var lower := if a > buddy then buddy else a;
        header := header[lower := level + 1];
        f, at := Merge(f, n), Merged(at, n);
        if level < TOP - 1 {
          Deallocate(lower, Up(n));
        } else {
          ReturnPage(lower, Up(n));
        }
      } else {
        ShelveRel(M(), f, at, n);
        PagesSame(pages, f, Shelve(f, n));
        lists := lists[level := [a] + lists[level]];
        f := Shelve(f, n);
      }
    }

    /** A page all of whose blocks are free again. */
    method ReturnPage(a: nat, ghost n: Node)
      requires Good() && f.loose == {n} && n.level == TOP && a == Addr(n)
      modifies this`pages, this`spare, this`f, this`at
      ensures Good() && f.loose == {} && f.live == old(f.live)
    {
      hide Rel, PagesOk, PoolOk;
      DropRel(M(), f, at, n.index);
      TopIsPage();
      var p := a / PAGE;
      assert p == n.index;
      PoolGive(all, spare, pages, whole, f, p);
      pages := pages - {p};
      spare := [p] + spare;
      f, at := DropPage(f), at - {a};
    }

    /** kmalloc: a block of its own for every caller, whole pages for the large ones. It fails for
        more than a page, or when there is no room. */
    method Kmalloc(size: nat) returns (r: Option<nat>)
      requires Valid()
      modifies this
      ensures Valid()
      ensures r == None ==> held == old(held) && (size > PAGE || Crowded(all, held, size))
      ensures r.Some? ==> r.value !in old(held) && held == old(held)[r.value := BlockOf(r.value, size)]
      ensures r.Some? ==> size <= PAGE && IsPlace(all, old(held), r.value, size)
      ensures r.Some? && size + HEAD <= 2048 ==> r.value >= HEAD && CutFrom(old(lists), old(spare), size + HEAD, r.value - HEAD, spare)
    {
      hide Rel, PagesOk, PoolOk, HeldOk, Addr, NoRoom, Crowded, IsPlace, BlockOf, Level, CutFrom;
      TopIsPage();
      if size + HEAD <= Size(TOP - 1) {
        var b;
        ghost var n;
        b, n := Allocate(size + HEAD);
        if b == None {
          NoPlace(held, f, at, M(), pages, all, spare, whole, size);
          return None;
        }
        Tight(size + HEAD);
        HeldSame(held, old(f), f, whole);
        OutRel(M(), f, at, n);
        PagesSame(pages, f, HandOut(f, n));
        HeldOut(held, f, whole, n);
        SmallBlock(n, size);
        f := HandOut(f, n);
        held := held[b.value + HEAD := n];
        FoundPlace(old(held), held, f, at, M(), pages, all, spare, whole, b.value + HEAD, size);
        return Some(b.value + HEAD);
      }
      WholePage(size);
      if size > PAGE { return None; }
      if spare == [] {
        NoPage(held, f, at, M(), pages, all, spare, whole, size);
        return None;
      }
      var p := spare[0];
      PoolTake(all, spare, pages, whole, f);
      HeldWhole(held, f, spare, pages, all, whole, p);
      PageBlock(p, size);
      spare, whole := spare[1..], whole + {p};
      held := held[p * PAGE := Node(TOP, p)];
      FoundPlace(old(held), held, f, at, M(), pages, all, spare, whole, p * PAGE, size);
      return Some(p * PAGE);
    }

    /** kfree: exactly that block is given up; a page no block of which is left goes back. */
    method Kfree(addr: nat)
      requires Valid() && addr in held
      modifies this
      ensures Valid() && held == old(held) - {addr}
    {
      hide Rel, PagesOk, PoolOk, HeldOk, Addr;
      ghost var n := held[addr];
      HeldPage(held, f, at, M(), pages, all, spare, whole, addr);
      if addr / PAGE in pages {
        BackRel(M(), f, at, n);
        PagesSame(pages, f, GiveBack(f, n));
        HeldBack(held, f, whole, addr);
        f, held := GiveBack(f, n), held - {addr};
        Deallocate(addr - HEAD, n);
        HeldSame(held, GiveBack(old(f), n), f, whole);
      } else {
        PoolWhole(all, spare, pages, whole, addr / PAGE);
        HeldLess(held, f, whole, addr);
        spare, whole := [addr / PAGE] + spare, whole - {addr / PAGE};
        held := held - {addr};
      }
    }
  }

  // ---------------------------------------------------------------- where blocks are given out

  function LevelFrom(l: nat, size: nat): nat
    decreases TOP - l
  {
    if l >= TOP || size <= Size(l) then l else LevelFrom(l + 1, size)
  }

  /** The level of the block for a request of `size` bytes: its header comes on top, and what does
      not fit in half a page gets a page. */
  function Level(size: nat): nat {
    LevelFrom(0, size + HEAD)
  }

  /** A block of a page begins with a header; a whole page does not. */
  function Offset(level: nat): nat {
    if level < TOP then HEAD else 0
  }

  /** The block that a request of `size` bytes has when it was given address `a`. */
  function BlockOf(a: nat, size: nat): Node {
    var level := Level(size);
    Node(level, if a < Offset(level) then 0 else (a - Offset(level)) / Size(level))
  }

  predicate Overlap(n: Node, m: Node) {
    Addr(n) < Addr(m) + Size(m.level) && Addr(m) < Addr(n) + Size(n.level)
  }

  predicate Touched(held: map<nat, Node>, n: Node) {
    exists a :: a in held && Overlap(held[a], n)
  }

  /** Wherever a block of that level could be, there is something in the way. */
  ghost predicate Crowded(all: set<nat>, held: map<nat, Node>, size: nat) {
    forall n: Node :: n.level == Level(size) && PageOf(n) in all ==> Touched(held, n)
  }

  /** The address is that of a block for the request, and there is nothing in the way. */
  ghost predicate IsPlace(all: set<nat>, held: map<nat, Node>, a: nat, size: nat) {
    var n := BlockOf(a, size);
    a == Addr(n) + Offset(n.level) && PageOf(n) in all && !Touched(held, n)
  }

  lemma {:induction false} FitIs(k: nat, level: nat, size: nat)
    requires Fit(level, size) && k <= level
    ensures LevelFrom(k, size) == level
    decreases level - k
  {
    if k < level {
      Grows(k, level - 1);
      FitIs(k + 1, level, size);
    }
  }

  lemma {:induction false} FitsLevel(l: nat, size: nat)
    requires l <= TOP && size <= PAGE
    ensures l <= LevelFrom(l, size) <= TOP && size <= Size(LevelFrom(l, size))
    decreases TOP - l
  {
    TopIsPage();
    if l < TOP && size > Size(l) { FitsLevel(l + 1, size); }
  }

  lemma {:induction false} LeastLevel(l: nat, size: nat)
    ensures forall k :: l <= k < LevelFrom(l, size) ==> Size(k) < size
    decreases TOP - l
  {
    if l < TOP && size > Size(l) { LeastLevel(l + 1, size); }
  }

  /** The block holds the request behind its header, and no smaller one does. */
  lemma BlockHolds(size: nat)
    requires size <= PAGE
    ensures Offset(Level(size)) + size <= Size(Level(size))
    ensures forall l :: 0 <= l < Level(size) ==> Size(l) < size + HEAD
  {
    LeastLevel(0, size + HEAD);
    TopIsPage();
    if size + HEAD <= PAGE {
      FitsLevel(0, size + HEAD);
    } else {
      WholePage(size);
    }
  }

  lemma WholePage(size: nat)
    requires size + HEAD > Size(TOP - 1)
    ensures Level(size) == TOP && Size(TOP) == PAGE
  {
    TopIsPage();
    forall l | 0 <= l < TOP ensures size + HEAD > Size(l) { Grows(l, TOP - 1); }
    NoneFits(0, size + HEAD);
  }

  lemma {:induction false} NoneFits(l: nat, size: nat)
    requires l <= TOP && forall k :: l <= k < TOP ==> size > Size(k)
    ensures LevelFrom(l, size) == TOP
    decreases TOP - l
  {
    if l < TOP { NoneFits(l + 1, size); }
  }

  lemma SmallBlock(n: Node, size: nat)
    requires Fit(n.level, size + HEAD) && n.level < TOP
    ensures BlockOf(Addr(n) + HEAD, size) == n && Offset(n.level) == HEAD
  {
    FitIs(0, n.level, size + HEAD);
    DivSlot(n.index, Size(n.level));
  }

  lemma PageBlock(p: nat, size: nat)
    requires size <= PAGE && Level(size) == TOP
    ensures BlockOf(p * PAGE, size) == Node(TOP, p) && Addr(Node(TOP, p)) == p * PAGE
  {
    TopIsPage();
    DivSlot(p, PAGE);
  }

  lemma PieceOverlaps(n: Node, m: Node)
    requires PieceOf(n, m)
    ensures Overlap(n, m) && Overlap(m, n)
  {
    PieceWithin(n, m, Addr(n));
  }

  /** The block, if it is not cut up, is part of one that is not. */
  lemma {:induction false} PartOf(f: Forest, n: Node) returns (m: Node)
    requires Settled(f) && n.level <= TOP && Node(TOP, PageOf(n)) in f.split
    ensures n in f.split || (PieceOf(n, m) && (m in f.free || m in f.live))
    decreases TOP - n.level
  {
    m := n;
    if n.level < TOP {
      m := PartOf(f, Up(n));
      if Up(n) in f.split { m := n; }
    }
  }

  lemma NoPlace(held: map<nat, Node>, f: Forest, at: map<nat, Node>, m: Memory, pages: set<nat>, all: set<nat>,
                spare: seq<nat>, whole: set<nat>, size: nat)
    requires HeldOk(held, f, whole) && Rel(m, f, at) && f.loose == {} && PagesOk(pages, f) && PoolOk(all, spare, pages, whole)
    requires size + HEAD <= Size(TOP - 1) && NoRoom(m.lists, spare, size + HEAD)
    ensures Crowded(all, held, size)
  {
    TopIsPage();
    FitsLevel(0, size + HEAD);
    forall n: Node | n.level == Level(size) && PageOf(n) in all ensures Touched(held, n) {
      InTheWay(held, f, at, m, pages, all, spare, whole, size + HEAD, n);
    }
  }

  lemma InTheWay(held: map<nat, Node>, f: Forest, at: map<nat, Node>, m: Memory, pages: set<nat>, all: set<nat>,
                 spare: seq<nat>, whole: set<nat>, size: nat, n: Node)
    requires HeldOk(held, f, whole) && Rel(m, f, at) && f.loose == {} && PagesOk(pages, f) && PoolOk(all, spare, pages, whole)
    requires NoRoom(m.lists, spare, size) && spare == [] && n.level <= TOP && size <= Size(n.level) && PageOf(n) in all
    ensures Touched(held, n)
  {
    hide *;
    IsSettled(m, f, at);
    PageHolds(n);
    if PageOf(n) in whole {
      PieceOverlaps(n, Node(TOP, PageOf(n)));
      WholeHeld(held, f, whole, n);
    } else {
      PageSplit(f, pages, all, spare, whole, PageOf(n));
      var h := PartOf(f, n);
      if n in f.split {
        h := LiveIn(f, n);
        PieceOverlaps(h, n);
      } else {
        if h in f.free {
          PieceLevel(n, h);
          Grows(n.level, h.level);
          FreeListed(m, f, at, h);
          NoneListed(m.lists, spare, size, h.level);
        }
        PieceOverlaps(n, h);
      }
      LiveHeld(held, f, whole, h, n);
    }
  }

  lemma WholeHeld(held: map<nat, Node>, f: Forest, whole: set<nat>, n: Node)
    requires HeldOk(held, f, whole) && PageOf(n) in whole && Overlap(Node(TOP, PageOf(n)), n)
    ensures Touched(held, n)
  {
    hide Overlap, Addr;
    assert Overlap(held[Addr(Node(TOP, PageOf(n)))], n);
  }

  lemma LiveHeld(held: map<nat, Node>, f: Forest, whole: set<nat>, h: Node, n: Node)
    requires HeldOk(held, f, whole) && h in f.live && Overlap(h, n)
    ensures Touched(held, n)
  {
    hide Overlap, Addr;
    assert Overlap(held[Addr(h) + HEAD], n);
  }

  lemma PageSplit(f: Forest, pages: set<nat>, all: set<nat>, spare: seq<nat>, whole: set<nat>, p: nat)
    requires PagesOk(pages, f) && PoolOk(all, spare, pages, whole) && f.loose == {} && spare == [] && p in all && p !in whole
    ensures Node(TOP, p) in f.split
  {
  }

  lemma NoneListed(lists: seq<seq<nat>>, spare: seq<nat>, size: nat, l: nat)
    requires NoRoom(lists, spare, size) && l < |lists|
    ensures lists[l] == [] || size > Size(l)
  {
  }

  lemma IsSettled(m: Memory, f: Forest, at: map<nat, Node>)
    requires Rel(m, f, at) && f.loose == {}
    ensures Settled(f)
  {
  }

  lemma {:induction false} PieceLevel(n: Node, m: Node)
    requires PieceOf(n, m)
    ensures n.level <= m.level && (n.level == m.level ==> n == m)
  {
  }

  lemma FreeListed(m: Memory, f: Forest, at: map<nat, Node>, n: Node)
    requires Rel(m, f, at) && n in f.free
    ensures n.level < |m.lists| && m.lists[n.level] != []
  {
    Listed(m, f, at, n);
  }

  lemma NoPage(held: map<nat, Node>, f: Forest, at: map<nat, Node>, m: Memory, pages: set<nat>, all: set<nat>,
               spare: seq<nat>, whole: set<nat>, size: nat)
    requires HeldOk(held, f, whole) && Rel(m, f, at) && f.loose == {} && PagesOk(pages, f) && PoolOk(all, spare, pages, whole)
    requires spare == [] && Level(size) == TOP
    ensures Crowded(all, held, size)
  {
    FitOwnPage();
    Nothing(m, f, at, Size(TOP));
    ListCount(m, f, at);
    forall n: Node | n.level == Level(size) && PageOf(n) in all ensures Touched(held, n) {
      InTheWay(held, f, at, m, pages, all, spare, whole, Size(TOP), n);
    }
  }

  lemma FitOwnPage()
    ensures Fit(TOP, Size(TOP))
  {
    Doubles(TOP - 1);
  }

  lemma FoundPlace(was: map<nat, Node>, held: map<nat, Node>, f: Forest, at: map<nat, Node>, m: Memory, pages: set<nat>,
                   all: set<nat>, spare: seq<nat>, whole: set<nat>, a: nat, size: nat)
    requires HeldOk(held, f, whole) && Rel(m, f, at) && PagesOk(pages, f) && PoolOk(all, spare, pages, whole)
    requires a !in was && held == was[a := BlockOf(a, size)] && a == Addr(held[a]) + Offset(held[a].level)
    ensures IsPlace(all, was, a, size)
  {
    var n := BlockOf(a, size);
    HeldPage(held, f, at, m, pages, all, spare, whole, a);
    PageAddr(n, a);
    forall b | b in was ensures !Overlap(was[b], n) {
      if Overlap(held[b], n) {
        var x := if Addr(held[b]) < Addr(n) then Addr(n) else Addr(held[b]);
        HeldDisjoint(held, f, at, m, pages, all, spare, whole, a, b, x);
      }
    }
  }

  lemma Tight(size: nat)
    requires size <= Size(TOP - 1)
    ensures !Fit(TOP, size)
  {
  }

  lemma {:induction false} Divisible(n: Node)
    ensures Addr(n) % 32 == 0
    decreases n.level
  {
    if n.level > 0 {
      Divisible(Left(n));
      HalvesAt(n);
    }
  }

  lemma HeldOut(held: map<nat, Node>, f: Forest, whole: set<nat>, n: Node)
    requires HeldOk(held, f, whole) && f.loose == {n} && n !in f.live
    requires forall m :: m in f.live ==> Addr(m) != Addr(n)
    ensures Addr(n) + HEAD !in held && HeldOk(held[Addr(n) + HEAD := n], HandOut(f, n), whole)
  {
    OutOfHand(held, f, whole, n);
    hide Addr;
    forall p | p in whole ensures Addr(Node(TOP, p)) != Addr(n) + HEAD { }
  }

  /** The address just behind a header is nobody's unless the block is. */
  lemma OutOfHand(held: map<nat, Node>, f: Forest, whole: set<nat>, n: Node)
    requires HeldOk(held, f, whole) && forall m :: m in f.live ==> Addr(m) != Addr(n)
    ensures Addr(n) + HEAD !in held
  {
    var a := Addr(n) + HEAD;
    if a in held {
      Divisible(held[a]);
      Divisible(n);
    }
  }

  lemma HeldWhole(held: map<nat, Node>, f: Forest, spare: seq<nat>, pages: set<nat>, all: set<nat>, whole: set<nat>,
                  p: nat)
    requires HeldOk(held, f, whole) && PoolOk(all, spare, pages, whole) && p in spare
    ensures p * PAGE !in held && HeldOk(held[p * PAGE := Node(TOP, p)], f, whole + {p})
  {
    TopIsPage();
    var n := Node(TOP, p);
    assert Addr(n) == p * PAGE;
    NotHeld(held, f, whole, p);
    hide Addr;
    forall q | q in whole + {p} ensures Addr(Node(TOP, q)) in held[Addr(n) := n] && held[Addr(n) := n][Addr(Node(TOP, q))] == Node(TOP, q) {
    }
  }

  lemma NotHeld(held: map<nat, Node>, f: Forest, whole: set<nat>, p: nat)
    requires HeldOk(held, f, whole) && p !in whole
    ensures Addr(Node(TOP, p)) !in held
  {
    var a := Addr(Node(TOP, p));
    Divisible(Node(TOP, p));
    if a in held {
      Divisible(held[a]);
      SameSlot(held[a].index, p, Size(TOP), a);
    }
  }

  /** The page flag tells kfree which of the two kinds of block it has. */
  lemma HeldPage(held: map<nat, Node>, f: Forest, at: map<nat, Node>, m: Memory, pages: set<nat>, all: set<nat>,
                 spare: seq<nat>, whole: set<nat>, a: nat)
    requires HeldOk(held, f, whole) && Rel(m, f, at) && PagesOk(pages, f) && PoolOk(all, spare, pages, whole) && a in held
    ensures a / PAGE in pages ==> held[a] in f.live && a == Addr(held[a]) + HEAD
    ensures a / PAGE !in pages ==> a / PAGE in whole && held[a] == Node(TOP, a / PAGE) && a == Addr(held[a])
  {
    var n := held[a];
    TopIsPage();
    if n in f.live {
      Grows(0, n.level);
      PageAddr(n, a);
      PageHolds(n);
      WholesSplit(f, n, Node(TOP, PageOf(n)));
    }
  }

  lemma HeldBack(held: map<nat, Node>, f: Forest, whole: set<nat>, a: nat)
    requires HeldOk(held, f, whole) && a in held && held[a] in f.live && a == Addr(held[a]) + HEAD
    ensures HeldOk(held - {a}, GiveBack(f, held[a]), whole)
  {
    Divisible(held[a]);
    forall p | p in whole ensures Addr(Node(TOP, p)) != a { Divisible(Node(TOP, p)); }
  }

  lemma HeldSame(held: map<nat, Node>, g: Forest, h: Forest, whole: set<nat>)
    requires HeldOk(held, g, whole) && g.live == h.live
    ensures HeldOk(held, h, whole)
  {
    hide Addr;
  }

  lemma PoolWhole(all: set<nat>, spare: seq<nat>, pages: set<nat>, whole: set<nat>, p: nat)
    requires PoolOk(all, spare, pages, whole) && p in whole
    ensures PoolOk(all, [p] + spare, pages, whole - {p})
  {
    NoDupPrepend(spare, p);
  }

  lemma HeldLess(held: map<nat, Node>, f: Forest, whole: set<nat>, a: nat)
    requires HeldOk(held, f, whole) && a in held && held[a].level == TOP && held[a].index in whole && a == Addr(held[a])
    ensures HeldOk(held - {a}, f, whole - {held[a].index})
  {
    Divisible(held[a]);
    forall n | n in f.live ensures Addr(n) + HEAD != a { Divisible(n); }
    hide Addr;
  }

  method InList(s: seq<nat>, x: nat) returns (found: bool)
    ensures found == (x in s)
  {
    var i := 0;
    while i < |s|
      invariant 0 <= i <= |s| && x !in s[..i]
    {
      if s[i] == x { return true; }
      i := i + 1;
    }
    return false;
  }

  lemma ListCount(m: Memory, f: Forest, at: map<nat, Node>)
    requires Rel(m, f, at)
    ensures |m.lists| == TOP + 1
  {
  }

  lemma FreeAt(m: Memory, f: Forest, at: map<nat, Node>, n: Node, a: nat)
    requires Rel(m, f, at) && a in at && at[a] == n && n in f.free
    ensures Addr(n) == a && a in m.header && m.header[a] == n.level
  {
  }

  lemma Listed(m: Memory, f: Forest, at: map<nat, Node>, n: Node)
    requires Rel(m, f, at) && n.level <= TOP
    ensures Addr(n) in m.lists[n.level] <==> n in f.free
  {
    var a := Addr(n);
    assert ListOk(m.lists[n.level], n.level, f, at);
    if a in m.lists[n.level] { Nested(at[a], n, a); }
  }

  /** No free list ever holds a whole page. */
  lemma Nothing(m: Memory, f: Forest, at: map<nat, Node>, size: nat)
    requires Rel(m, f, at) && Fit(TOP, size)
    ensures forall l :: 0 <= l <= TOP && size <= Size(l) ==> m.lists[l] == []
  {
    var pages := m.lists[TOP];
    assert |pages| > 0 ==> pages[0] in pages;
    assert ListOk(pages, TOP, f, at);
    assert forall a :: a !in pages;
    forall l | 0 <= l <= TOP && size <= Size(l) ensures m.lists[l] == [] {
      if l < TOP { Grows(l, TOP - 1); }
    }
  }

  lemma Next(level: nat, size: nat)
    requires Fit(level, size) && level < TOP
    ensures Size(level) < Size(level + 1) && size < Size(level + 1)
    ensures forall l :: 0 <= l <= TOP && Size(l) < size ==> Size(l) < Size(level + 1)
    ensures forall l :: 0 <= l <= TOP && size <= Size(l) && l != level ==> Size(level + 1) <= Size(l)
  {
    Doubles(level);
    forall l | 0 <= l <= TOP && size <= Size(l) && l != level ensures Size(level + 1) <= Size(l) {
      if l < level { Grows(l, level - 1); } else { Grows(level + 1, l); }
    }
  }

  lemma FitOwn(k: nat, l: nat)
    requires Fit(k, Size(l)) && l <= TOP
    ensures k == l
  {
    if k < l {
      Doubles(l - 1);
      Grows(k, l - 1);
    } else if l < k {
      Grows(l, k - 1);
    }
  }

  lemma PoolTake(all: set<nat>, spare: seq<nat>, pages: set<nat>, whole: set<nat>, f: Forest)
    requires PoolOk(all, spare, pages, whole) && PagesOk(pages, f) && spare != []
    ensures PoolOk(all, spare[1..], pages + {spare[0]}, whole) && Node(TOP, spare[0]) !in f.split
    ensures PoolOk(all, spare[1..], pages, whole + {spare[0]})
  {
    assert spare == [spare[0]] + spare[1..];
  }

  lemma PoolGive(all: set<nat>, spare: seq<nat>, pages: set<nat>, whole: set<nat>, f: Forest, p: nat)
    requires PoolOk(all, spare, pages, whole) && PagesOk(pages, f) && Settled(DropPage(f)) && f.loose == {Node(TOP, p)}
    requires Node(TOP, p) !in f.split
    ensures PoolOk(all, [p] + spare, pages - {p}, whole) && PagesOk(pages - {p}, DropPage(f))
  {
    NoDupPrepend(spare, p);
  }

  lemma PagesNew(pages: set<nat>, f: Forest, p: nat)
    requires PagesOk(pages, f) && f.loose == {}
    ensures PagesOk(pages + {p}, NewPage(f, p))
  {
  }

  lemma PagesSame(pages: set<nat>, f: Forest, g: Forest)
    requires PagesOk(pages, f)
    requires forall p :: Node(TOP, p) in f.split || Node(TOP, p) in f.loose <==> Node(TOP, p) in g.split || Node(TOP, p) in g.loose
    ensures PagesOk(pages, g)
  {
  }

  // ---------------------------------------------------------------- every run

  datatype Op = Malloc(size: nat) | Free(addr: nat)

  /** The blocks given out and not given back, by their addresses, after these calls. */
  function BlocksAfter(ops: seq<Op>, results: seq<Option<nat>>): map<nat, Node>
    requires |ops| == |results|
  {
    if ops == [] then map[]
    else
      var n := |ops| - 1;
      var blocks := BlocksAfter(ops[..n], results[..n]);
      match ops[n]
      case Malloc(size) => if results[n].Some? then blocks[results[n].value := BlockOf(results[n].value, size)] else blocks
      case Free(addr) => blocks - {addr}
  }

  /** What a call may return: an address just where there is a place. */
  ghost predicate Legal(all: set<nat>, blocks: map<nat, Node>, op: Op, r: Option<nat>) {
    match op
    case Malloc(size) =>
      if r == None then size > PAGE || Crowded(all, blocks, size)
      else size <= PAGE && r.value !in blocks && IsPlace(all, blocks, r.value, size)
    case Free(_) => r == None
  }

  ghost predicate Explained(all: set<nat>, ops: seq<Op>, results: seq<Option<nat>>) {
    && |ops| == |results|
    && forall n :: 0 <= n < |ops| ==> Legal(all, BlocksAfter(ops[..n], results[..n]), ops[n], results[n])
  }

  lemma ExplainedMore(all: set<nat>, ops: seq<Op>, results: seq<Option<nat>>, op: Op, r: Option<nat>)
    requires Explained(all, ops, results) && Legal(all, BlocksAfter(ops, results), op, r)
    ensures Explained(all, ops + [op], results + [r])
    ensures (ops + [op])[..|ops|] == ops && (results + [r])[..|ops|] == results
  {
    hide Legal, BlocksAfter;
    var o, s := ops + [op], results + [r];
    forall n | 0 <= n < |o| ensures Legal(all, BlocksAfter(o[..n], s[..n]), o[n], s[n]) {
      if n < |ops| {
        assert o[..n] == ops[..n] && s[..n] == results[..n];
      } else {
        assert o[..n] == ops && s[..n] == results;
      }
    }
  }

  /** No two blocks given out overlap. */
  ghost predicate Separate(blocks: map<nat, Node>) {
    forall a, b :: a in blocks && b in blocks && a != b ==> !Overlap(blocks[a], blocks[b])
  }

  /** Each is given out by an address of its own, in a page of the allocator. */
  ghost predicate Based(all: set<nat>, blocks: map<nat, Node>) {
    forall a :: a in blocks ==> var n := blocks[a]; a == Addr(n) + Offset(n.level) && PageOf(n) in all
  }

  /** At every moment of every run. */
  lemma {:induction false} NeverShared(all: set<nat>, ops: seq<Op>, results: seq<Option<nat>>)
    requires Explained(all, ops, results)
    ensures Separate(BlocksAfter(ops, results)) && Based(all, BlocksAfter(ops, results))
  {
    if ops != [] {
      var n := |ops| - 1;
      ExplainedLess(all, ops, results);
      NeverShared(all, ops[..n], results[..n]);
      hide Crowded, Addr, BlockOf, PageOf;
      assert Legal(all, BlocksAfter(ops[..n], results[..n]), ops[n], results[n]);
    }
  }

  lemma ExplainedLess(all: set<nat>, ops: seq<Op>, results: seq<Option<nat>>)
    requires Explained(all, ops, results) && ops != []
    ensures Explained(all, ops[..|ops| - 1], results[..|ops| - 1])
  {
    hide Legal, BlocksAfter;
    var o, s := ops[..|ops| - 1], results[..|ops| - 1];
    forall n | 0 <= n < |o| ensures Legal(all, BlocksAfter(o[..n], s[..n]), o[n], s[n]) {
      assert o[..n] == ops[..n] && s[..n] == results[..n];
    }
  }

  /** A page is free exactly when nobody has anything in it. */
  predicate PagesBack(all: seq<nat>, spare: seq<nat>, blocks: map<nat, Node>) {
    && NoDup(spare) && (forall p :: p in spare ==> p in all)
    && forall p :: p in all ==> (p in spare <==> forall a :: a in blocks ==> a / PAGE != p)
  }

  lemma HeldDisjoint(held: map<nat, Node>, f: Forest, at: map<nat, Node>, m: Memory, pages: set<nat>, all: set<nat>,
                     spare: seq<nat>, whole: set<nat>, a: nat, b: nat, x: nat)
    requires HeldOk(held, f, whole) && Rel(m, f, at) && PagesOk(pages, f) && PoolOk(all, spare, pages, whole) && a in held && b in held
    requires Within(held[a], x) && Within(held[b], x)
    ensures a == b
  {
    PageAddr(held[a], x);
    PageAddr(held[b], x);
    if held[a] in f.live && held[b] in f.live {
      Disjoint(f, held[a], held[b], x);
    } else if held[a] in f.live {
      PageHolds(held[a]);
      WholesSplit(f, held[a], Node(TOP, PageOf(held[a])));
    } else if held[b] in f.live {
      PageHolds(held[b]);
      WholesSplit(f, held[b], Node(TOP, PageOf(held[b])));
    }
  }

  lemma RunPages(held: map<nat, Node>, f: Forest, at: map<nat, Node>, m: Memory, pages: set<nat>, all: seq<nat>,
                 spare: seq<nat>, whole: set<nat>)
    requires HeldOk(held, f, whole) && Rel(m, f, at) && f.loose == {} && PagesOk(pages, f)
    requires PoolOk(Elements(all), spare, pages, whole)
    ensures PagesBack(all, spare, held)
  {
    forall a | a in held ensures a / PAGE in pages || a / PAGE in whole {
      HeldPage(held, f, at, m, pages, Elements(all), spare, whole, a);
    }
    forall p | p in all && p !in spare ensures exists a :: a in held && a / PAGE == p {
      var a := InPage(held, f, at, m, pages, whole, p);
    }
  }

  lemma InPage(held: map<nat, Node>, f: Forest, at: map<nat, Node>, m: Memory, pages: set<nat>, whole: set<nat>,
               p: nat) returns (a: nat)
    requires HeldOk(held, f, whole) && Rel(m, f, at) && f.loose == {} && PagesOk(pages, f) && (p in pages || p in whole)
    ensures a in held && a / PAGE == p
  {
    TopIsPage();
    if p in pages {
      PagesExact(f, p);
      var n :| n in f.live && PageOf(n) == p;
      a := Addr(n) + HEAD;
      Grows(0, n.level);
      PageAddr(n, a);
    } else {
      a := Addr(Node(TOP, p));
    }
  }

  /** In every run, whatever is allocated and freed in whatever order: a request fails exactly when
      it is for more than a page or there is no place for its block, and a page is back with the
      page allocator as soon as its last block is. */
  method Run(free: seq<nat>, ops: seq<Op>) returns (results: seq<Option<nat>>, spare: seq<nat>)
    requires NoDup(free)
    ensures Explained(Elements(free), ops, results) && PagesBack(free, spare, BlocksAfter(ops, results))
  {
    hide Rel, PagesOk, PoolOk, HeldOk, Explained, Crowded, IsPlace, BlockOf;
    var m := new Allocator(free);
    results := [];
    var given := {};
    ghost var all := Elements(free);
    assert Explained(all, [], []) by { ExplainedStart(all); }
    assert ops[..0] == [];
    for i := 0 to |ops|
      invariant fresh(m) && m.Valid() && m.all == all && |results| == i && given == m.held.Keys
      invariant Explained(all, ops[..i], results) && m.held == BlocksAfter(ops[..i], results)
    {
      var r := None;
      match ops[i] {
        case Malloc(size) =>
          r := m.Kmalloc(size);
          if r.Some? { given := given + {r.value}; }
        case Free(addr) =>
          if addr in given { m.Kfree(addr); }
          given := given - {addr};
      }
      ExplainedMore(all, ops[..i], results, ops[i], r);
      assert ops[..i + 1] == ops[..i] + [ops[i]];
      results := results + [r];
    }
    assert ops[..|ops|] == ops;
    spare := m.spare;
    RunPages(m.held, m.f, m.at, m.M(), m.pages, free, m.spare, m.whole);
  }

  lemma ExplainedStart(all: set<nat>)
    ensures Explained(all, [], [])
  {
  }
}
