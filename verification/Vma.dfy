/**
 The memory regions of a process: a list of address ranges, sorted by address, with what each was
 mapped with. Addresses count pages, file offsets bytes.
 */
module Vma {
  import opened Wrappers

  datatype Attr = Attr(prot: nat, flags: nat, kind: nat, inode: nat)

  datatype Region = Region(start: nat, end: nat, attr: Attr, offset: nat)

  const PAGE_SIZE: nat := 4096
  const P_MMAP: nat := 6
  const P_SHM: nat := 7

  /** MMAP_START. */
  const BASE: nat := 0x40000

  predicate In(r: Region, p: nat) {
    r.start <= p < r.end
  }

  /** find_vma_region: what a page is mapped with. */
  function At(l: seq<Region>, p: nat): Option<Attr> {
    if l == [] then None else if In(l[0], p) then Some(l[0].attr) else At(l[1..], p)
  }

  /** No region is empty, and each lies before the next. */
  ghost predicate Ok(l: seq<Region>) {
    && (forall i :: 0 <= i < |l| ==> l[i].start < l[i].end)
    && (forall i, j :: 0 <= i < j < |l| ==> l[i].end <= l[j].start)
  }

  predicate ByMmap(r: Region) {
    r.attr.kind == P_MMAP || r.attr.kind == P_SHM
  }

  /** Page 0 is not mapped; what lies below BASE ends there, and was not put there by mmap; what
      starts at BASE was. */
  predicate Placed(r: Region) {
    && 0 < r.start && (r.start < BASE ==> r.end <= BASE && !ByMmap(r))
    && (r.start == BASE ==> ByMmap(r))
  }

  ghost predicate AllPlaced(l: seq<Region>) {
    forall i :: 0 <= i < |l| ==> Placed(l[i])
  }

  ghost predicate Free(l: seq<Region>, a: nat, n: nat) {
    forall p :: a <= p < a + n ==> At(l, p) == None
  }

  ghost predicate Full(l: seq<Region>, a: nat, n: nat) {
    forall p :: a <= p < a + n ==> At(l, p).Some?
  }

  /** `n` free pages from `a` on, with a mapped page somewhere above them. */
  ghost predicate Fits(l: seq<Region>, a: nat, n: nat) {
    Free(l, a, n) && exists p :: a + n <= p && At(l, p).Some?
  }

  /** The lowest place from BASE on where `n` pages fit; None if there is no such place. */
  ghost predicate Chosen(l: seq<Region>, n: nat, r: Option<nat>) {
    match r
    case None => forall a :: BASE <= a ==> !Fits(l, a, n)
    case Some(a) => BASE <= a && Fits(l, a, n) && forall b :: BASE <= b < a ==> !Fits(l, b, n)
  }

  /** `k` maps what `l` maps, but for the pages from `a` on, which it maps to `to`. */
  ghost predicate Mapped(l: seq<Region>, k: seq<Region>, a: nat, n: nat, to: Option<Attr>) {
    forall p: nat :: At(k, p) == if a <= p < a + n then to else At(l, p)
  }

  // ---------------------------------------------------------------- lists of regions

  lemma {:induction false} AtAppend(a: seq<Region>, b: seq<Region>, p: nat)
    ensures At(a + b, p) == if At(a, p).Some? then At(a, p) else At(b, p)
  {
    if a == [] {
      assert a + b == b;
    } else {
      assert (a + b)[1..] == a[1..] + b;
      AtAppend(a[1..], b, p);
    }
  }

  lemma {:induction false} AtIndex(l: seq<Region>, p: nat)
    ensures At(l, p).Some? <==> exists i :: 0 <= i < |l| && In(l[i], p)
  {
    if l != [] {
      AtIndex(l[1..], p);
      if exists i :: 0 <= i < |l| && In(l[i], p) {
        var i :| 0 <= i < |l| && In(l[i], p);
        assert i > 0 ==> l[1..][i - 1] == l[i];
      }
      if At(l[1..], p).Some? {
        var i :| 0 <= i < |l| - 1 && In(l[1..][i], p);
        assert In(l[i + 1], p);
      }
    }
  }

  ghost predicate Before(a: seq<Region>, b: seq<Region>) {
    forall i, j :: 0 <= i < |a| && 0 <= j < |b| ==> a[i].end <= b[j].start
  }

  lemma OkAppend(a: seq<Region>, b: seq<Region>)
    requires Ok(a) && Ok(b) && Before(a, b)
    ensures Ok(a + b)
  {
  }

  lemma OkParts(a: seq<Region>, b: seq<Region>)
    requires Ok(a + b)
    ensures Ok(a) && Ok(b) && Before(a, b)
  {
    var l := a + b;
    assert forall i :: 0 <= i < |a| ==> l[i] == a[i];
    assert forall j :: 0 <= j < |b| ==> l[|a| + j] == b[j];
  }

  lemma BeforeBoth(a: seq<Region>, b: seq<Region>, c: seq<Region>)
    ensures Before(a, b + c) <==> Before(a, b) && Before(a, c)
  {
    assert forall i :: 0 <= i < |b| ==> (b + c)[i] == b[i];
    assert forall i :: 0 <= i < |c| ==> (b + c)[|b| + i] == c[i];
  }

  // ---------------------------------------------------------------- inserting and merging

  /** Everything in `a` starts no later than `r`, everything in `b` later. */
  ghost predicate Splits(a: seq<Region>, b: seq<Region>, r: Region) {
    (forall i :: 0 <= i < |a| ==> a[i].start <= r.start) && (forall j :: 0 <= j < |b| ==> b[j].start > r.start)
  }

  lemma InsertOk(a: seq<Region>, b: seq<Region>, r: Region)
    requires Ok(a + b) && Splits(a, b, r) && r.start < r.end && Free(a + b, r.start, r.end - r.start)
    ensures Ok(a + ([r] + b)) && (a != [] ==> a[|a| - 1].end <= r.start)
  {
    OkParts(a, b);
    var l := a + b;
    forall i | 0 <= i < |a| ensures a[i].end <= r.start {
      AtIndex(l, r.start);
      assert l[i] == a[i];
    }
    forall j | 0 <= j < |b| ensures r.end <= b[j].start {
      AtIndex(l, b[j].start);
      assert l[|a| + j] == b[j] && In(b[j], b[j].start);
    }
    OkAppend([r], b);
    OkAppend(a, [r] + b);
  }

  lemma InsertMaps(a: seq<Region>, b: seq<Region>, r: Region)
    requires r.start < r.end && Free(a + b, r.start, r.end - r.start)
    ensures Mapped(a + b, a + ([r] + b), r.start, r.end - r.start, Some(r.attr))
  {
    forall p: nat ensures At(a + ([r] + b), p) == if In(r, p) then Some(r.attr) else At(a + b, p) {
      AtAppend(a, b, p);
      AtAppend(a, [r] + b, p);
      assert ([r] + b)[1..] == b;
    }
  }

  /** can_be_merged. */
  predicate Mergeable(a: Region, b: Region) {
    a.end == b.start && a.attr == b.attr && a.offset == b.offset && a.attr.kind != P_SHM
  }

  lemma MergeOk(a: seq<Region>, x: Region, y: Region, b: seq<Region>)
    requires Ok(a + ([x, y] + b)) && Mergeable(x, y)
    ensures Ok(a + ([x.(end := y.end)] + b))
  {
    hide Ok, Before;
    var m := x.(end := y.end);
    OkParts(a, [x, y] + b);
    OkParts([x, y], b);
    BeforeBoth(a, [x, y], b);
    MergedOk(a, x, y, b);
    OkAppend([m], b);
    BeforeBoth(a, [m], b);
    OkAppend(a, [m] + b);
  }

  lemma MergedOk(a: seq<Region>, x: Region, y: Region, b: seq<Region>)
    requires Ok([x, y]) && Before(a, [x, y]) && Before([x, y], b) && Mergeable(x, y)
    ensures var m := x.(end := y.end); Ok([m]) && Before(a, [m]) && Before([m], b)
  {
    assert [x, y][0] == x && [x, y][1] == y;
  }

  lemma MergeMaps(a: seq<Region>, x: Region, y: Region, b: seq<Region>)
    requires x.start < x.end && y.start < y.end && Mergeable(x, y)
    ensures forall p: nat :: At(a + ([x.(end := y.end)] + b), p) == At(a + ([x, y] + b), p)
  {
    var m := x.(end := y.end);
    forall p: nat ensures At(a + ([m] + b), p) == At(a + ([x, y] + b), p) {
      AtAppend(a, [m] + b, p);
      AtAppend(a, [x, y] + b, p);
      assert ([m] + b)[1..] == b && ([x, y] + b)[1..] == [y] + b && ([y] + b)[1..] == b;
    }
  }

  // ---------------------------------------------------------------- taking a piece out

  /** What is left of a region once the pages from `a` to `b` are gone. */
  function Remains(r: Region, a: nat, b: nat): seq<Region> {
    (if r.start < a then [r.(end := a)] else []) + (if b < r.end then [r.(start := b)] else [])
  }

  lemma CutOk(l: seq<Region>, i: nat, a: nat, b: nat)
    requires Ok(l) && i < |l| && l[i].start <= a < b <= l[i].end
    ensures Ok(l[..i] + (Remains(l[i], a, b) + l[i + 1..]))
  {
    hide Ok, Before;
    var r, x, y := l[i], l[..i], l[i + 1..];
    assert l == x + ([r] + y);
    OkParts(x, [r] + y);
    OkParts([r], y);
    BeforeBoth(x, [r], y);
    RemainsOk(r, a, b, x, y);
    OkAppend(Remains(r, a, b), y);
    BeforeBoth(x, Remains(r, a, b), y);
    OkAppend(x, Remains(r, a, b) + y);
  }

  lemma RemainsOk(r: Region, a: nat, b: nat, x: seq<Region>, y: seq<Region>)
    requires r.start <= a < b <= r.end && Before(x, [r]) && Before([r], y)
    ensures Ok(Remains(r, a, b)) && Before(x, Remains(r, a, b)) && Before(Remains(r, a, b), y)
  {
    assert [r][0] == r;
  }

  lemma CutMaps(l: seq<Region>, i: nat, a: nat, b: nat)
    requires Ok(l) && i < |l| && l[i].start <= a < b <= l[i].end
    ensures Mapped(l, l[..i] + (Remains(l[i], a, b) + l[i + 1..]), a, b - a, None)
  {
    var r, x, y := l[i], l[..i], l[i + 1..];
    assert l == x + ([r] + y);
    forall p: nat ensures At(x + (Remains(r, a, b) + y), p) == if a <= p < b then None else At(l, p) {
      AtAppend(x, [r] + y, p);
      AtAppend(x, Remains(r, a, b) + y, p);
      AtAppend([r], y, p);
      AtAppend(Remains(r, a, b), y, p);
      AtRemains(r, a, b, p);
      if In(r, p) { OnlyHere(l, i, p); }
    }
  }

  lemma AtRemains(r: Region, a: nat, b: nat, p: nat)
    requires r.start <= a < b <= r.end
    ensures At(Remains(r, a, b), p) == if In(r, p) && !(a <= p < b) then Some(r.attr) else None
    ensures At([r], p) == if In(r, p) then Some(r.attr) else None
  {
    AtAppend(if r.start < a then [r.(end := a)] else [], if b < r.end then [r.(start := b)] else [], p);
  }

  /** A page is in one region only. */
  lemma OnlyHere(l: seq<Region>, i: nat, p: nat)
    requires Ok(l) && i < |l| && In(l[i], p)
    ensures At(l[..i], p) == None && At(l[i + 1..], p) == None
  {
    AtIndex(l[..i], p);
    AtIndex(l[i + 1..], p);
    var y := l[i + 1..];
    assert forall j :: 0 <= j < |y| ==> y[j] == l[i + 1 + j];
  }

  // ---------------------------------------------------------------- a range out of all regions

  /** What a region keeps when the pages from `a` to `b` are unmapped. */
  function Piece(r: Region, a: nat, b: nat): seq<Region> {
    if b <= a || b <= r.start || r.end <= a then [r]
    else Remains(r, if a < r.start then r.start else a, if r.end < b then r.end else b)
  }

  function Minus(l: seq<Region>, a: nat, b: nat): seq<Region> {
    if l == [] then [] else Piece(l[0], a, b) + Minus(l[1..], a, b)
  }

  lemma {:induction false} MinusAppend(x: seq<Region>, y: seq<Region>, a: nat, b: nat)
    ensures Minus(x + y, a, b) == Minus(x, a, b) + Minus(y, a, b)
  {
    if x == [] {
      assert x + y == y;
    } else {
      assert (x + y)[1..] == x[1..] + y;
      MinusAppend(x[1..], y, a, b);
    }
  }

  lemma MinusOne(r: Region, a: nat, b: nat)
    ensures Minus([r], a, b) == Piece(r, a, b)
  {
    assert [r][1..] == [];
  }

  lemma {:induction false} MinusApart(l: seq<Region>, a: nat, b: nat)
    requires forall i :: 0 <= i < |l| ==> b <= l[i].start || l[i].end <= a || b <= a
    ensures Minus(l, a, b) == l
  {
    if l != [] { MinusApart(l[1..], a, b); }
  }

  /** A range inside one region. */
  lemma CutIsMinus(l: seq<Region>, i: nat, a: nat, b: nat)
    requires Ok(l) && i < |l| && l[i].start <= a < b <= l[i].end
    ensures Minus(l, a, b) == l[..i] + (Remains(l[i], a, b) + l[i + 1..])
  {
    hide Minus, Ok, Remains;
    var x, y := l[..i], l[i + 1..];
    assert l == x + ([l[i]] + y);
    MinusAppend(x, [l[i]] + y, a, b);
    MinusAppend([l[i]], y, a, b);
    MinusOne(l[i], a, b);
    OthersApart(l, i);
    MinusApart(x, a, b);
    MinusApart(y, a, b);
  }

  lemma OthersApart(l: seq<Region>, i: nat)
    requires Ok(l) && i < |l|
    ensures var x, y := l[..i], l[i + 1..];
      (forall j :: 0 <= j < |x| ==> x[j].end <= l[i].start) && (forall j :: 0 <= j < |y| ==> l[i].end <= y[j].start)
  {
    var y := l[i + 1..];
    assert forall j :: 0 <= j < |y| ==> y[j] == l[i + 1 + j];
  }

  lemma PieceTwice(r: Region, a: nat, b: nat, c: nat)
    requires a <= b <= c && r.start < r.end
    ensures Minus(Piece(r, a, b), b, c) == Piece(r, a, c)
  {
    if b <= a || b <= r.start || r.end <= a {
      MinusOne(r, b, c);
    } else {
      var x, y := if r.start < a then [r.(end := a)] else [], if b < r.end then [r.(start := b)] else [];
      assert Piece(r, a, b) == x + y;
      MinusAppend(x, y, b, c);
      MinusApart(x, b, c);
      if y != [] { MinusOne(y[0], b, c); }
      hide Minus;
    }
  }

  /** One range and then the next is both. */
  lemma {:induction false} MinusTwice(l: seq<Region>, a: nat, b: nat, c: nat)
    requires a <= b <= c && forall i :: 0 <= i < |l| ==> l[i].start < l[i].end
    ensures Minus(Minus(l, a, b), b, c) == Minus(l, a, c)
  {
    if l != [] {
      MinusAppend(Piece(l[0], a, b), Minus(l[1..], a, b), b, c);
      PieceTwice(l[0], a, b, c);
      MinusTwice(l[1..], a, b, c);
    }
  }

  // ---------------------------------------------------------------- the regions of a process

  ghost predicate Good(l: seq<Region>) {
    Ok(l) && AllPlaced(l)
  }

  lemma InsertGood(a: seq<Region>, b: seq<Region>, r: Region)
    requires Good(a + b) && Splits(a, b, r) && r.start < r.end && Placed(r) && Free(a + b, r.start, r.end - r.start)
    ensures Good(a + ([r] + b)) && Mapped(a + b, a + ([r] + b), r.start, r.end - r.start, Some(r.attr))
  {
    hide Ok, Mapped, Free, AllPlaced, Placed, Splits;
    InsertOk(a, b, r);
    InsertMaps(a, b, r);
    InsertPlaced(a, b, r);
  }

  lemma InsertPlaced(a: seq<Region>, b: seq<Region>, r: Region)
    requires AllPlaced(a + b) && Placed(r)
    ensures AllPlaced(a + ([r] + b))
  {
    hide Placed;
    var l := a + b;
    assert forall i :: 0 <= i < |a| ==> l[i] == a[i];
    assert forall j :: 0 <= j < |b| ==> l[|a| + j] == b[j];
  }

  lemma MergeGood(l: seq<Region>, a: seq<Region>, x: Region, y: Region, b: seq<Region>, s: nat, n: nat,
                  to: Option<Attr>)
    requires Good(a + ([x, y] + b)) && Mergeable(x, y) && Mapped(l, a + ([x, y] + b), s, n, to)
    ensures Good(a + ([x.(end := y.end)] + b)) && Mapped(l, a + ([x.(end := y.end)] + b), s, n, to)
  {
    var k := a + ([x, y] + b);
    assert k[|a|] == x && k[|a| + 1] == y;
    MergeOk(a, x, y, b);
    MergeMaps(a, x, y, b);
    hide Ok, At;
    assert forall i :: 0 <= i < |a| ==> k[i] == a[i];
    assert forall j :: 0 <= j < |b| ==> k[|a| + 2 + j] == b[j];
  }

  /** `k` is `l` with `r` put in at place `i`, joined to the region before it if the two fit. */
  ghost predicate Inserted(l: seq<Region>, k: seq<Region>, r: Region, i: nat) {
    && i <= |l| && Splits(l[..i], l[i..], r)
    && k == if i > 0 && Mergeable(l[i - 1], r) then l[..i - 1] + ([l[i - 1].(end := r.end)] + l[i..]) else l[..i] + ([r] + l[i..])
  }

  ghost predicate PutIn(l: seq<Region>, k: seq<Region>, r: Region) {
    exists i: nat :: Inserted(l, k, r, i)
  }

  class Space {
    var list: seq<Region>

    ghost predicate Valid()
      reads this
    {
      Good(list)
    }

    constructor (l: seq<Region>)
      requires Good(l)
      ensures Valid() && list == l
    {
      list := l;
    }

    /** find_vma_region, which never finds page 0. */
    method Find(p: nat) returns (r: Option<nat>)
      requires Valid()
      ensures r.Some? ==> r.value < |list| && In(list[r.value], p)
      ensures r == None <==> At(list, p) == None
    {
      AtIndex(list, p);
      if p == 0 { return None; }
      var i := 0;
      while i < |list|
        invariant 0 <= i <= |list| && forall j :: 0 <= j < i ==> !In(list[j], p)
      {
        if In(list[i], p) { return Some(i); }
        i := i + 1;
      }
      return None;
    }

    /** Where a region belongs: before the first that starts later. */
    method Position(r: Region) returns (i: nat)
      requires Valid()
      ensures i <= |list| && Splits(list[..i], list[i..], r)
    {
      i := 0;
      while i < |list|
        invariant 0 <= i <= |list| && forall j :: 0 <= j < i ==> list[j].start <= r.start
      {
        if list[i].start > r.start { break; }
        i := i + 1;
      }
      LaterStarts(list, i, r);
    }

    /** insert_vma_region, with the merge it ends in. */
    method InsertRegion(r: Region)
      requires Valid() && r.start < r.end && Placed(r) && Free(list, r.start, r.end - r.start)
      modifies this
      ensures Valid() && Mapped(old(list), list, r.start, r.end - r.start, Some(r.attr))
      ensures PutIn(old(list), list, r)
    {
      hide Good, Mapped, Free, Splits;
      var i := Position(r);
      var a, b := list[..i], list[i..];
      assert list == a + b;
      InsertGood(a, b, r);
      list := a + ([r] + b);
      if i > 0 {
        assert list[i - 1] == a[i - 1] && list[i] == r;
        assert list[..i - 1] == a[..i - 1] && list[i + 1..] == b;
        MergeAt(i, old(list), r.start, r.end - r.start, Some(r.attr));
        assert a[..i - 1] + ([a[i - 1], r] + b) == a + ([r] + b);
      }
      assert Inserted(old(list), list, r, i);
    }

    /** merge_vma_regions, of regions that do not overlap. */
    method MergeAt(i: nat, ghost l: seq<Region>, ghost start: nat, ghost n: nat, ghost to: Option<Attr>)
      requires Valid() && 0 < i < |list| && Mapped(l, list, start, n, to)
      modifies this
      ensures Valid() && Mapped(l, list, start, n, to)
      ensures var x, y := old(list)[i - 1], old(list)[i];
        list == old(list)[..i - 1] + ((if Mergeable(x, y) then [x.(end := y.end)] else [x, y]) + old(list)[i + 1..])
    {
      hide Good, Mapped;
      var x, y := list[i - 1], list[i];
      assert list == list[..i - 1] + ([x, y] + list[i + 1..]);
      if Mergeable(x, y) {
        var a, b := list[..i - 1], list[i + 1..];
        assert list == a + ([x, y] + b);
        MergeGood(l, a, x, y, b, start, n, to);
        list := a + ([x.(end := y.end)] + b);
      }
    }

    /** free_vma_region: the pages from `a` to `b` of region `i`; what is left behind them becomes a
        region of its own. */
    method FreeRegion(i: nat, a: nat, b: nat)
      requires Valid() && i < |list| && list[i].start <= a < b <= list[i].end
      modifies this
      ensures Valid() && Mapped(old(list), list, a, b - a, None) && list == Minus(old(list), a, b)
    {
      ghost var l := list;
      var r := list[i];
      TrimGood(l, i, a);
      RestGood(l, i, a, b);
      CutIsMinus(l, i, a, b);
      hide Good, Mapped, Free, Placed, Minus, Ok;
      var front, back := list[..i], list[i + 1..];
      list := if r.start == a then front + back else front + ([r.(end := a)] + back);
      assert list == front + (Remains(r, a, r.end) + back) by { TrimIs(r, a, front, back); }
      if b < r.end {
        ghost var mid := list;
        InsertRegion(r.(start := b));
        PutBack(l, mid, list, i, a, b);
        ghost var j: nat :| Inserted(mid, list, r.(start := b), j);
        PutBackAt(l, mid, list, i, j, a, b);
      } else {
        assert Remains(r, a, b) == Remains(r, a, r.end);
      }
    }

    /** get_unmapped_vma_region: the lowest place from BASE on, below some region, where `n` pages
        are free, if there is one. */
    method GetUnmapped(n: nat) returns (r: Option<nat>)
      requires Valid() && n > 0
      ensures Chosen(list, n, r)
    {
      var addr, i := BASE, 0;
      while i < |list|
        invariant 0 <= i <= |list| && BASE <= addr
        invariant forall j :: 0 <= j < i ==> list[j].end <= addr
        invariant addr == BASE || (i > 0 && addr == list[i - 1].end)
        invariant forall a :: BASE <= a < addr ==> !Free(list, a, n)
      {
        if list[i].start >= BASE {
          if list[i].start - addr >= n {
            GapFits(list, i, addr, n);
            return Some(addr);
          }
          Blocked(list, i, addr, n);
          addr := list[i].end;
        }
        i := i + 1;
      }
      NothingAbove(list, addr);
      return None;
    }

    /** do_mmap, for a place of the kernel's choice: exactly these pages become mapped, and they
        were not before. Of no pages nothing is made. */
    method Mmap(hint: nat, n: nat, attr: Attr, offset: nat) returns (r: Option<nat>)
      requires Valid() && (attr.kind == P_MMAP || attr.kind == P_SHM)
      modifies this
      ensures Valid()
      ensures Maps(old(list), hint, n, attr, offset, r, list)
    {
      if n == 0 { return Some(hint); }
      r := GetUnmapped(n);
      if r.Some? {
        InsertRegion(Region(r.value, r.value + n, attr, offset));
      }
    }

    /** do_munmap: exactly these pages become unmapped. At a page that is not mapped it would go
        round for ever; that is where it stops here. */
    method Munmap(a: nat, n: nat) returns (stuck: Option<nat>)
      requires Valid()
      modifies this
      ensures Valid()
      ensures stuck == None ==> Unmaps(old(list), a, n, list)
      ensures stuck.Some? ==> a <= stuck.value < a + n && At(old(list), stuck.value) == None
      ensures stuck.Some? ==> Full(old(list), a, stuck.value - a) && Mapped(old(list), list, a, stuck.value - a, None)
      ensures list == Minus(old(list), a, if stuck.Some? then stuck.value else a + n)
    {
      hide Good, Minus;
      ghost var l := list;
      NoneGone(l, a);
      var addr, length := a, n;
      while length > 0
        invariant Valid() && length >= 0 && a <= addr && addr + length == a + n
        invariant Full(l, a, addr - a) && Mapped(l, list, a, addr - a, None) && list == Minus(l, a, addr)
      {
        ghost var mid := list;
        var i := Find(addr);
        if i == None { return Some(addr); }
        var end := list[i.value].end;
        var size := if addr + length > end then end - addr else length;
        AllIn(list, i.value, addr, size);
        FreeRegion(i.value, addr, addr + size);
        UnmapMore(l, mid, list, a, addr, size);
        GoneMore(l, a, addr, addr + size);
        addr, length := addr + size, length - size;
      }
      return None;
    }
  }

  lemma LaterStarts(l: seq<Region>, i: nat, r: Region)
    requires Ok(l) && i <= |l| && (i < |l| ==> l[i].start > r.start) && forall j :: 0 <= j < i ==> l[j].start <= r.start
    ensures Splits(l[..i], l[i..], r)
  {
    var b := l[i..];
    assert forall j :: 0 <= j < |b| ==> b[j] == l[i + j];
  }

  lemma TrimIs(r: Region, a: nat, front: seq<Region>, back: seq<Region>)
    requires r.start <= a < r.end
    ensures front + (Remains(r, a, r.end) + back) == if r.start == a then front + back else front + ([r.(end := a)] + back)
  {
    if r.start == a {
      assert Remains(r, a, r.end) + back == back;
    }
  }

  lemma TrimGood(l: seq<Region>, i: nat, a: nat)
    requires Good(l) && i < |l| && l[i].start <= a < l[i].end
    ensures var k := l[..i] + (Remains(l[i], a, l[i].end) + l[i + 1..]);
      Good(k) && Mapped(l, k, a, l[i].end - a, None)
  {
    CutOk(l, i, a, l[i].end);
    CutMaps(l, i, a, l[i].end);
    hide Ok, Mapped;
  }

  lemma RestGood(l: seq<Region>, i: nat, a: nat, b: nat)
    requires Good(l) && i < |l| && l[i].start <= a < b <= l[i].end
    ensures var k := l[..i] + (Remains(l[i], a, l[i].end) + l[i + 1..]); var r := l[i].(start := b);
      Placed(l[i]) && (b < l[i].end ==> Placed(r) && Free(k, b, l[i].end - b))
  {
    CutMaps(l, i, a, l[i].end);
  }

  lemma PutBack(l: seq<Region>, mid: seq<Region>, k: seq<Region>, i: nat, a: nat, b: nat)
    requires Ok(l) && i < |l| && l[i].start <= a < b < l[i].end
    requires Mapped(l, mid, a, l[i].end - a, None) && Mapped(mid, k, b, l[i].end - b, Some(l[i].attr))
    ensures Mapped(l, k, a, b - a, None)
  {
    forall p: nat ensures At(k, p) == if a <= p < a + (b - a) then None else At(l, p) {
      if b <= p < l[i].end { InRegion(l, i, p); }
    }
  }

  /** A region goes where the later ones begin, and is joined to nothing that ends before it. */
  lemma PutBetween(u: seq<Region>, v: seq<Region>, k: seq<Region>, r: Region, j: nat)
    requires Inserted(u + v, k, r, j) && Splits(u, v, r) && (u != [] ==> u[|u| - 1].end < r.start)
    ensures k == u + ([r] + v)
  {
    var l := u + v;
    if j < |l| { SameSide(u, v, r, j, j); }
    if |u| < |l| { SameSide(u, v, r, j, |u|); }
    assert l[..|u|] == u && l[|u|..] == v;
  }

  lemma SameSide(u: seq<Region>, v: seq<Region>, r: Region, j: nat, m: nat)
    requires j <= |u + v| && m < |u + v| && Splits((u + v)[..j], (u + v)[j..], r) && Splits(u, v, r)
    ensures m < j <==> m < |u|
  {
    var l := u + v;
    assert m < j ==> l[..j][m] == l[m];
    assert m >= j ==> l[j..][m - j] == l[m];
    assert l[m] == if m < |u| then u[m] else v[m - |u|];
  }

  /** The rest goes back to where it was. */
  lemma PutBackAt(l: seq<Region>, mid: seq<Region>, k: seq<Region>, i: nat, j: nat, a: nat, b: nat)
    requires Ok(l) && i < |l| && l[i].start <= a < b < l[i].end
    requires mid == l[..i] + (Remains(l[i], a, l[i].end) + l[i + 1..]) && Inserted(mid, k, l[i].(start := b), j)
    ensures k == l[..i] + (Remains(l[i], a, b) + l[i + 1..])
  {
    hide Inserted, Ok, Splits, Remains;
    var r, x, y := l[i], l[..i], l[i + 1..];
    var front, rest := if r.start < a then [r.(end := a)] else [], r.(start := b);
    RemainsAre(r, a, b);
    assert x + (front + y) == (x + front) + y;
    RestSplits(l, i, front, rest);
    PutBetween(x + front, y, k, rest, j);
    assert (x + front) + ([rest] + y) == x + ((front + [rest]) + y);
  }

  lemma RemainsAre(r: Region, a: nat, b: nat)
    requires r.start <= a < b < r.end
    ensures var front := if r.start < a then [r.(end := a)] else [];
      Remains(r, a, r.end) == front && Remains(r, a, b) == front + [r.(start := b)]
  {
  }

  lemma RestSplits(l: seq<Region>, i: nat, front: seq<Region>, rest: Region)
    requires Ok(l) && i < |l| && l[i].start < rest.start < l[i].end
    requires front == [] || (|front| == 1 && front[0].start == l[i].start && front[0].end < rest.start)
    ensures Splits(l[..i] + front, l[i + 1..], rest)
    ensures l[..i] + front != [] ==> (l[..i] + front)[|l[..i] + front| - 1].end < rest.start
  {
    var u, y := l[..i] + front, l[i + 1..];
    assert forall m :: 0 <= m < |y| ==> y[m] == l[i + 1 + m];
    assert forall m :: 0 <= m < |u| ==> u[m] == if m < i then l[m] else front[0];
  }

  lemma {:induction false} InRegion(l: seq<Region>, i: nat, p: nat)
    requires Ok(l) && i < |l| && In(l[i], p)
    ensures At(l, p) == Some(l[i].attr)
  {
    if i > 0 {
      assert l == [l[0]] + l[1..];
      OkParts([l[0]], l[1..]);
      InRegion(l[1..], i - 1, p);
    }
  }

  lemma AllIn(l: seq<Region>, i: nat, a: nat, n: nat)
    requires Good(l) && i < |l| && l[i].start <= a && a + n <= l[i].end
    ensures Full(l, a, n)
  {
    forall p | a <= p < a + n ensures At(l, p).Some? { InRegion(l, i, p); }
  }

  lemma UnmapMore(l: seq<Region>, mid: seq<Region>, k: seq<Region>, a: nat, addr: nat, size: nat)
    requires a <= addr && Full(l, a, addr - a) && Mapped(l, mid, a, addr - a, None)
    requires Full(mid, addr, size) && Mapped(mid, k, addr, size, None)
    ensures Full(l, a, addr + size - a) && Mapped(l, k, a, addr + size - a, None)
  {
  }

  lemma NoneGone(l: seq<Region>, a: nat)
    ensures Minus(l, a, a) == l
  {
    MinusApart(l, a, a);
  }

  lemma GoneMore(l: seq<Region>, a: nat, b: nat, c: nat)
    requires Good(l) && a <= b <= c
    ensures Minus(Minus(l, a, b), b, c) == Minus(l, a, c)
  {
    MinusTwice(l, a, b, c);
  }

  lemma GapFits(l: seq<Region>, i: nat, addr: nat, n: nat)
    requires Ok(l) && i < |l| && (forall j :: 0 <= j < i ==> l[j].end <= addr) && addr + n <= l[i].start
    ensures Fits(l, addr, n)
  {
    forall p | addr <= p < addr + n ensures At(l, p) == None { AtIndex(l, p); }
    InRegion(l, i, l[i].start);
  }

  lemma NothingAbove(l: seq<Region>, addr: nat)
    requires forall j :: 0 <= j < |l| ==> l[j].end <= addr
    ensures forall p :: addr <= p ==> At(l, p) == None
  {
    forall p | addr <= p ensures At(l, p) == None { AtIndex(l, p); }
  }

  /** Between `addr` and the end of a region that starts too early, nothing fits. */
  lemma Blocked(l: seq<Region>, i: nat, addr: nat, n: nat)
    requires Ok(l) && i < |l| && BASE <= addr && l[i].start - addr < n && n > 0
    requires forall a :: BASE <= a < addr ==> !Free(l, a, n)
    ensures forall a :: BASE <= a < l[i].end ==> !Free(l, a, n)
  {
    forall a | addr <= a < l[i].end ensures !Free(l, a, n) {
      var p := if a < l[i].start then l[i].start else a;
      InRegion(l, i, p);
    }
  }

  // ---------------------------------------------------------------- every run

  datatype Op = Map(hint: nat, n: nat, attr: Attr, offset: nat) | Unmap(a: nat, n: nat)

  predicate Sensible(op: Op) {
    op.Map? ==> op.attr.kind == P_MMAP || op.attr.kind == P_SHM
  }

  /** What a page is mapped with after these calls, given where each mmap put its pages: whatever
      the last call that covers it says. */
  function Page(ops: seq<Op>, to: seq<Option<nat>>, start: seq<Region>, p: nat): Option<Attr>
    requires |ops| == |to|
  {
    if ops == [] then At(start, p)
    else
      var n := |ops| - 1;
      match ops[n]
      case Map(_, k, attr, _) =>
        if to[n].Some? && to[n].value <= p < to[n].value + k then Some(attr) else Page(ops[..n], to[..n], start, p)
      case Unmap(a, k) =>
        if a <= p < a + k then None else Page(ops[..n], to[..n], start, p)
  }

  ghost predicate Shows(l: seq<Region>, ops: seq<Op>, to: seq<Option<nat>>, start: seq<Region>)
    requires |ops| == |to|
  {
    forall p: nat :: At(l, p) == Page(ops, to, start, p)
  }

  /** What mmap may return, and what it makes of the regions. */
  ghost predicate Maps(l: seq<Region>, hint: nat, n: nat, attr: Attr, offset: nat, r: Option<nat>, k: seq<Region>) {
    if n == 0 then r == Some(hint) && k == l
    else
      && Chosen(l, n, r)
      && if r == None then k == l
         else Mapped(l, k, r.value, n, Some(attr)) && PutIn(l, k, Region(r.value, r.value + n, attr, offset))
  }

  ghost predicate Unmaps(l: seq<Region>, a: nat, n: nat, k: seq<Region>) {
    Full(l, a, n) && Mapped(l, k, a, n, None) && k == Minus(l, a, a + n)
  }

  /** What one call may return, and what it makes of the regions. */
  ghost predicate Step(l: seq<Region>, op: Op, r: Option<nat>, k: seq<Region>) {
    match op
    case Map(hint, n, attr, offset) => Maps(l, hint, n, attr, offset, r, k)
    case Unmap(a, n) => r == None && Unmaps(l, a, n, k)
  }

  /** The regions before and after each call. */
  ghost predicate Explained(ops: seq<Op>, to: seq<Option<nat>>, lists: seq<seq<Region>>) {
    && |to| <= |ops| && |lists| == |to| + 1
    && (forall i :: 0 <= i < |to| ==> Step(lists[i], ops[i], to[i], lists[i + 1]))
    && (forall i :: 0 <= i < |lists| ==> Ok(lists[i]))
  }

  /** The regions on the way, as a map from pages to attributes, are what the calls so far say. */
  lemma {:induction false} ExplainedShows(ops: seq<Op>, to: seq<Option<nat>>, lists: seq<seq<Region>>, n: nat)
    requires Explained(ops, to, lists) && n <= |to|
    ensures Shows(lists[n], ops[..n], to[..n], lists[0])
  {
    if n > 0 {
      ExplainedShows(ops, to, lists, n - 1);
      assert ops[..n][..n - 1] == ops[..n - 1] && to[..n][..n - 1] == to[..n - 1];
      assert Step(lists[n - 1], ops[n - 1], to[n - 1], lists[n]);
      forall p: nat ensures At(lists[n], p) == Page(ops[..n], to[..n], lists[0], p) {
        assert At(lists[n - 1], p) == Page(ops[..n - 1], to[..n - 1], lists[0], p);
      }
    }
  }

  lemma ExplainedMore(ops: seq<Op>, to: seq<Option<nat>>, lists: seq<seq<Region>>, r: Option<nat>, k: seq<Region>)
    requires Explained(ops, to, lists) && |to| < |ops| && Step(lists[|to|], ops[|to|], r, k) && Good(k)
    ensures Explained(ops, to + [r], lists + [k])
  {
    hide Step, Good;
    GoodOk(k);
  }

  // ---------------------------------------------------------------- where in its file a page is

  /** The place in the file that a fault on page `p` of the region reads, if it has a file: rounded down to a page. */
  function Position(r: Region, p: nat): Option<nat>
    requires r.start <= p
  {
    if r.attr.inode == 0 then None else Some(((p - r.start) * PAGE_SIZE + r.offset) / PAGE_SIZE * PAGE_SIZE)
  }

  function FileAt(l: seq<Region>, p: nat): Option<nat> {
    if l == [] then None else if In(l[0], p) then Position(l[0], p) else FileAt(l[1..], p)
  }

  lemma {:induction false} FileAppend(a: seq<Region>, b: seq<Region>, p: nat)
    ensures FileAt(a + b, p) == if At(a, p).Some? then FileAt(a, p) else FileAt(b, p)
  {
    if a == [] {
      assert a + b == b;
    } else {
      assert (a + b)[1..] == a[1..] + b;
      FileAppend(a[1..], b, p);
    }
  }

  lemma {:induction false} FileNone(l: seq<Region>, p: nat)
    ensures At(l, p) == None ==> FileAt(l, p) == None
  {
    if l != [] { FileNone(l[1..], p); }
  }

  lemma FileOne(r: Region, p: nat)
    ensures FileAt([r], p) == if In(r, p) then Position(r, p) else None
    ensures At([r], p) == if In(r, p) then Some(r.attr) else None
  {
    assert [r][1..] == [];
  }

  /** The region just below, of the same file and the same offset, takes a new one in. */
  ghost predicate JoinsAt(l: seq<Region>, r: Region, i: nat) {
    i < |l| && l[i].end == r.start && l[i].attr == r.attr && l[i].offset == r.offset && r.attr.kind != P_SHM
  }

  ghost predicate Joins(l: seq<Region>, r: Region) {
    exists i: nat :: JoinsAt(l, r, i)
  }

  ghost predicate Clear(l: seq<Region>, r: Region) {
    Ok(l) && r.start < r.end && Free(l, r.start, r.end - r.start)
  }

  /** Only the region before its place can take a new one in. */
  lemma JoinPlace(l: seq<Region>, k: seq<Region>, r: Region, i: nat, j: nat)
    requires Clear(l, r) && Inserted(l, k, r, i) && JoinsAt(l, r, j)
    ensures j + 1 == i && Mergeable(l[j], r)
  {
    hide Free;
    Sides(l, r, i, j);
    if j + 1 < |l| {
      Sides(l, r, i, j + 1);
      Unmapped(l, r, j + 1);
    }
  }

  lemma Sides(l: seq<Region>, r: Region, i: nat, j: nat)
    requires i <= |l| && j < |l| && Splits(l[..i], l[i..], r)
    ensures j < i <==> l[j].start <= r.start
  {
    assert j < i ==> l[..i][j] == l[j];
    assert j >= i ==> l[i..][j - i] == l[j];
  }

  lemma Unmapped(l: seq<Region>, r: Region, j: nat)
    requires Clear(l, r) && j < |l|
    ensures !In(l[j], r.start)
  {
    AtIndex(l, r.start);
  }

  /** A new region is one more, unless another takes it in. */
  lemma InsertedCount(l: seq<Region>, k: seq<Region>, r: Region, i: nat)
    requires Clear(l, r) && Inserted(l, k, r, i)
    ensures (i > 0 && Mergeable(l[i - 1], r)) <==> Joins(l, r)
    ensures |k| == |l| + if Joins(l, r) then 0 else 1
  {
    hide Clear;
    if i > 0 && Mergeable(l[i - 1], r) { assert JoinsAt(l, r, i - 1); }
    forall j: nat | JoinsAt(l, r, j) ensures i > 0 && Mergeable(l[i - 1], r) { JoinPlace(l, k, r, i, j); }
  }

  /** Every other page stays where it is in its file; the new ones are where the region says that they
      are in. */
  lemma InsertedFiles(l: seq<Region>, k: seq<Region>, r: Region, i: nat, p: nat)
    requires Clear(l, r) && Inserted(l, k, r, i)
    ensures FileAt(k, p) ==
      if !In(r, p) then FileAt(l, p)
      else if i > 0 && Mergeable(l[i - 1], r) then Position(l[i - 1], p)
      else Position(r, p)
  {
    hide Clear, Splits;
    var x, y := l[..i], l[i..];
    assert l == x + y;
    FileAppend(x, y, p);
    ClearAt(l, r, i, p);
    if i > 0 && Mergeable(l[i - 1], r) {
      var u, m := l[..i - 1], l[i - 1].(end := r.end);
      assert x == u + [l[i - 1]];
      FileAppend(u, [l[i - 1]], p);
      AtAppend(u, [l[i - 1]], p);
      FileOne(l[i - 1], p);
      FileAppend(u, [m] + y, p);
      FileAppend([m], y, p);
      FileOne(m, p);
      Nonempty(l, r, i - 1);
    } else {
      FileAppend(x, [r] + y, p);
      FileAppend([r], y, p);
      FileOne(r, p);
    }
  }

  lemma Nonempty(l: seq<Region>, r: Region, j: nat)
    requires Clear(l, r) && j < |l|
    ensures l[j].start < l[j].end && r.start < r.end
  {
  }

  lemma ClearAt(l: seq<Region>, r: Region, i: nat, p: nat)
    requires Clear(l, r) && i <= |l|
    ensures In(r, p) ==> At(l[..i], p) == None && At(l, p) == None && (i > 0 ==> At(l[..i - 1], p) == None)
  {
    assert l == l[..i] + l[i..];
    AtAppend(l[..i], l[i..], p);
    if i > 0 {
      assert l[..i] == l[..i - 1] + [l[i - 1]];
      AtAppend(l[..i - 1], [l[i - 1]], p);
    }
  }

  /** All pages of a new region are where in the file the call asked for. */
  ghost predicate AsAsked(k: seq<Region>, r: Region) {
    forall p :: In(r, p) ==> FileAt(k, p) == Position(r, p)
  }

  /** A mapping of a file shows what it should exactly when no region takes it in; a mapping of no file
      always does. */
  lemma MapAsAskedIff(l: seq<Region>, k: seq<Region>, r: Region)
    requires Clear(l, r) && PutIn(l, k, r)
    ensures AsAsked(k, r) <==> r.attr.inode == 0 || !Joins(l, r)
    ensures forall p: nat :: !In(r, p) ==> FileAt(k, p) == FileAt(l, p)
  {
    var i: nat :| Inserted(l, k, r, i);
    InsertedCount(l, k, r, i);
    forall p: nat ensures FileAt(k, p) ==
      if !In(r, p) then FileAt(l, p) else if i > 0 && Mergeable(l[i - 1], r) then Position(l[i - 1], p) else Position(r, p)
    {
      InsertedFiles(l, k, r, i, p);
    }
    hide Inserted, PutIn, Joins, FileAt;
    if i > 0 && Mergeable(l[i - 1], r) {
      Nonempty(l, r, i - 1);
      assert In(r, r.start);
    }
  }

  /** The same page of a file mapped twice, one below the other: the second shows the next page. */
  lemma MapExample()
    ensures var attr := Attr(1, 2, P_MMAP, 5);
      var l := [Region(BASE, BASE + 1, attr, 0)];
      var r := Region(BASE + 1, BASE + 2, attr, 0);
      var k := [Region(BASE, BASE + 2, attr, 0)];
      Clear(l, r) && PutIn(l, k, r) && FileAt(k, BASE + 1) == Some(PAGE_SIZE) && Position(r, BASE + 1) == Some(0)
  {
    var attr := Attr(1, 2, P_MMAP, 5);
    var l, r := [Region(BASE, BASE + 1, attr, 0)], Region(BASE + 1, BASE + 2, attr, 0);
    forall p | r.start <= p < r.end ensures At(l, p) == None { FileOne(l[0], p); }
    assert Inserted(l, [Region(BASE, BASE + 2, attr, 0)], r, 1);
  }

  /** The page a region begins with, once the pages below `b` are gone. */
  function Begins(r: Region, b: nat): nat {
    if r.start < b then b else r.start
  }

  lemma PieceFiles(r: Region, a: nat, b: nat, p: nat)
    requires r.start < r.end && a < b
    ensures At(Piece(r, a, b), p) == if In(r, p) && !(a <= p < b) then Some(r.attr) else None
    ensures FileAt(Piece(r, a, b), p) ==
      if !In(r, p) || a <= p < b then None
      else if p < b || r.end <= a then Position(r, p) else Position(r.(start := Begins(r, b)), p)
  {
    if b <= r.start || r.end <= a {
      FileOne(r, p);
    } else {
      var x, y := if r.start < a then [r.(end := a)] else [], if b < r.end then [r.(start := b)] else [];
      assert Piece(r, a, b) == x + y;
      FileAppend(x, y, p);
      AtAppend(x, y, p);
      if x != [] { FileOne(x[0], p); }
      if y != [] { FileOne(y[0], p); }
    }
  }

  /** Pages below the range stay where they are in their files; those above it do as far as their
      region begins there. */
  lemma {:induction false} MinusFiles(l: seq<Region>, a: nat, b: nat, i: nat, p: nat)
    requires Ok(l) && a < b && i < |l| && In(l[i], p) && !(a <= p < b)
    ensures FileAt(l, p) == Position(l[i], p)
    ensures FileAt(Minus(l, a, b), p) == if p < b || l[i].end <= a then Position(l[i], p) else Position(l[i].(start := Begins(l[i], b)), p)
  {
    assert l == [l[0]] + l[1..];
    FileAppend(Piece(l[0], a, b), Minus(l[1..], a, b), p);
    PieceFiles(l[0], a, b, p);
    if i > 0 {
      OkParts([l[0]], l[1..]);
      assert [l[0]][0] == l[0] && l[1..][i - 1] == l[i];
      MinusFiles(l[1..], a, b, i - 1, p);
    }
  }

  /** The range ends inside a region of a file. */
  ghost predicate CutsFile(l: seq<Region>, b: nat) {
    exists i :: 0 <= i < |l| && l[i].start < b < l[i].end && l[i].attr.inode != 0
  }

  ghost predicate SameFiles(l: seq<Region>, k: seq<Region>, a: nat, b: nat) {
    forall p: nat :: At(l, p).Some? && !(a <= p < b) ==> FileAt(k, p) == FileAt(l, p)
  }

  /** Unmapping leaves every other page where it is in its file exactly when the range does not end in
      the middle of a region of a file. */
  lemma UnmapKeepsFilesIff(l: seq<Region>, a: nat, n: nat)
    requires Ok(l) && n > 0
    ensures SameFiles(l, Minus(l, a, a + n), a, a + n) <==> !CutsFile(l, a + n)
  {
    hide Minus, FileAt, At;
    var b, k := a + n, Minus(l, a, a + n);
    if CutsFile(l, b) {
      var i :| 0 <= i < |l| && l[i].start < b < l[i].end && l[i].attr.inode != 0;
      MinusFiles(l, a, b, i, b);
      InRegion(l, i, b);
    } else {
      forall p: nat | At(l, p).Some? && !(a <= p < b) ensures FileAt(k, p) == FileAt(l, p) {
        AtIndex(l, p);
        var i :| 0 <= i < |l| && In(l[i], p);
        MinusFiles(l, a, b, i, p);
      }
    }
  }

  /** The first page of a mapping of two unmapped: the second then shows the first page of the file. */
  lemma UnmapExample()
    ensures var l := [Region(BASE, BASE + 2, Attr(1, 2, P_MMAP, 5), 0)];
      FileAt(l, BASE + 1) == Some(PAGE_SIZE) && FileAt(Minus(l, BASE, BASE + 1), BASE + 1) == Some(0)
  {
    MinusFiles([Region(BASE, BASE + 2, Attr(1, 2, P_MMAP, 5), 0)], BASE, BASE + 1, 0, BASE + 1);
  }

  /** Where in its file a page is after these calls: as the last call that mapped it said. */
  function FilePage(ops: seq<Op>, to: seq<Option<nat>>, start: seq<Region>, p: nat): Option<nat>
    requires |ops| == |to|
  {
    if ops == [] then FileAt(start, p)
    else
      var n := |ops| - 1;
      match ops[n]
      case Map(_, k, attr, offset) =>
        if to[n].Some? && to[n].value <= p < to[n].value + k
        then Position(Region(to[n].value, to[n].value + k, attr, offset), p) else FilePage(ops[..n], to[..n], start, p)
      case Unmap(a, k) =>
        if a <= p < a + k then None else FilePage(ops[..n], to[..n], start, p)
  }

  /** The call takes no mapping of a file into another, and cuts none in two. */
  ghost predicate Exact(l: seq<Region>, op: Op, r: Option<nat>) {
    match op
    case Map(_, n, attr, offset) => r.Some? && n > 0 ==> attr.inode == 0 || !Joins(l, Region(r.value, r.value + n, attr, offset))
    case Unmap(a, n) => n > 0 ==> !CutsFile(l, a + n)
  }

  lemma StepFiles(l: seq<Region>, op: Op, r: Option<nat>, k: seq<Region>, p: nat)
    requires Ok(l) && Step(l, op, r, k) && Exact(l, op, r)
    ensures op.Map? && r.Some? && r.value <= p < r.value + op.n ==>
      FileAt(k, p) == Position(Region(r.value, r.value + op.n, op.attr, op.offset), p)
    ensures op.Map? && !(r.Some? && r.value <= p < r.value + op.n) ==> FileAt(k, p) == FileAt(l, p)
    ensures op.Unmap? ==> FileAt(k, p) == if op.a <= p < op.a + op.n then None else FileAt(l, p)
  {
    hide FileAt, Minus, Joins, CutsFile, PutIn;
    if op.Map? && op.n > 0 && r.Some? {
      MapAsAskedIff(l, k, Region(r.value, r.value + op.n, op.attr, op.offset));
    } else if op.Unmap? {
      FileNone(l, p);
      FileNone(k, p);
      if op.n > 0 { UnmapKeepsFilesIff(l, op.a, op.n); } else { MinusApart(l, op.a, op.a); }
    }
  }

  /** In a run of such calls every page is where in its file the last call that mapped it said. */
  lemma {:induction false} ExplainedFiles(ops: seq<Op>, to: seq<Option<nat>>, lists: seq<seq<Region>>, n: nat, p: nat)
    requires Explained(ops, to, lists) && n <= |to| && forall i :: 0 <= i < n ==> Exact(lists[i], ops[i], to[i])
    ensures FileAt(lists[n], p) == FilePage(ops[..n], to[..n], lists[0], p)
  {
    hide Step, Exact, Position;
    if n > 0 {
      ExplainedFiles(ops, to, lists, n - 1, p);
      assert ops[..n][..n - 1] == ops[..n - 1] && to[..n][..n - 1] == to[..n - 1];
      assert Step(lists[n - 1], ops[n - 1], to[n - 1], lists[n]);
      StepFiles(lists[n - 1], ops[n - 1], to[n - 1], lists[n], p);
    }
  }

  /** After every run of mmap and munmap the regions are sorted and apart; each mmap gets the lowest
      pages that fit, or nothing when none do. A run ends early only where munmap would not end: at
      a range with a page in it that is not mapped. */
  method Run(start: seq<Region>, ops: seq<Op>) returns (to: seq<Option<nat>>, lists: seq<seq<Region>>)
    requires Good(start) && forall i :: 0 <= i < |ops| ==> Sensible(ops[i])
    ensures Explained(ops, to, lists) && lists[0] == start
    ensures |to| < |ops| ==> ops[|to|].Unmap? && !Full(lists[|to|], ops[|to|].a, ops[|to|].n)
  {
    hide Good, Maps, Unmaps, Minus, Mapped;
    var s := new Space(start);
    GoodOk(start);
    to, lists := [], [start];
    for i := 0 to |ops|
      invariant fresh(s) && s.Valid() && |to| == i && Explained(ops, to, lists) && lists[i] == s.list && lists[0] == start
    {
      ghost var l := s.list;
      var r := None;
      match ops[i] {
        case Map(hint, n, attr, offset) =>
          assert Sensible(ops[i]);
          r := s.Mmap(hint, n, attr, offset);
        case Unmap(a, n) =>
          var stuck := s.Munmap(a, n);
          if stuck.Some? {
            return;
          }
      }
      ExplainedMore(ops, to, lists, r, s.list);
      to, lists := to + [r], lists + [s.list];
    }
  }

  lemma GoodOk(l: seq<Region>)
    requires Good(l)
    ensures Ok(l)
  {
  }
}
