/**
 Fork by copy-on-write: the page tables, page counters and fault handlers of
 private anonymous memory, and the machine that copies every page at fork, which
 a process cannot tell from it.

 Addresses are page numbers. Every region is private and zero-filled.
 */
module CopyOnWrite {
  import opened Wrappers

  const PAGE_SIZE: nat := 4096

  type Byte = b: int | 0 <= b < 256
  type Page = s: seq<Byte> | |s| == PAGE_SIZE witness ZeroPage()

  function ZeroPage(): (s: seq<Byte>)
    ensures |s| == PAGE_SIZE && forall i :: 0 <= i < |s| ==> s[i] == 0
  {
    seq(PAGE_SIZE, _ => 0)
  }

  datatype Prot = ProtNone | ReadOnly | ReadWrite
  datatype Vma = Vma(start: nat, end: nat, prot: Prot)
  datatype Pte = Pte(frame: nat, rw: bool)
  datatype Frame = Frame(count: nat, cow: bool, data: Page)

  type PageTables = map<(nat, nat), Pte>

  /** What a process sees of one access. `Killed` is the signal sent when no page is left. */
  datatype Outcome = Value(b: Byte) | Stored | Segv | Killed

  // ---------------------------------------------------------------- regions

  predicate Sorted(rs: seq<Vma>) {
    && (forall i :: 0 <= i < |rs| ==> rs[i].start < rs[i].end)
    && (forall i, j :: 0 <= i < j < |rs| ==> rs[i].end <= rs[j].start)
  }

  predicate Contains(r: Vma, v: nat) {
    r.start <= v < r.end
  }

  predicate Covered(rs: seq<Vma>, v: nat) {
    exists i :: 0 <= i < |rs| && Contains(rs[i], v)
  }

  /** The protection the region list gives to page `v`, none when no region holds it. */
  function ProtAt(rs: seq<Vma>, v: nat): Option<Prot> {
    if rs == [] then None
    else if Contains(rs[0], v) then Some(rs[0].prot)
    else ProtAt(rs[1..], v)
  }

  lemma {:induction false} ProtAtIndex(rs: seq<Vma>, i: nat, v: nat)
    requires Sorted(rs) && i < |rs| && Contains(rs[i], v)
    ensures ProtAt(rs, v) == Some(rs[i].prot)
  {
    if i > 0 { ProtAtIndex(rs[1..], i - 1, v); }
  }

  lemma {:induction false} ProtAtCovered(rs: seq<Vma>, v: nat)
    ensures ProtAt(rs, v).Some? <==> Covered(rs, v)
  {
    if rs != [] {
      ProtAtCovered(rs[1..], v);
      if Covered(rs, v) && !Contains(rs[0], v) {
        var i :| 0 <= i < |rs| && Contains(rs[i], v);
        assert Contains(rs[1..][i - 1], v);
      }
      if Covered(rs[1..], v) {
        var i :| 0 <= i < |rs[1..]| && Contains(rs[1..][i], v);
        assert Contains(rs[i + 1], v);
      }
    }
  }

  // ---------------------------------------------------------------- references

  /** The page-table entries that name frame `f`. */
  ghost function Refs(ptes: PageTables, f: nat): set<(nat, nat)> {
    set k | k in ptes && ptes[k].frame == f
  }

  lemma RefsUpdate(ptes: PageTables, k: (nat, nat), e: Pte, f: nat)
    ensures |Refs(ptes[k := e], f)| == |Refs(ptes, f)|
                                       - (if k in ptes && ptes[k].frame == f then 1 else 0)
                                       + (if e.frame == f then 1 else 0)
  {
    var was := Refs(ptes, f) - {k};
    assert Refs(ptes[k := e], f) == if e.frame == f then was + {k} else was;
  }

  lemma RefsRemove(ptes: PageTables, k: (nat, nat), f: nat)
    requires k in ptes
    ensures |Refs(ptes - {k}, f)| == |Refs(ptes, f)| - (if ptes[k].frame == f then 1 else 0)
  {
    assert Refs(ptes - {k}, f) == Refs(ptes, f) - {k};
  }

  lemma RefsOther(ptes: PageTables, k: (nat, nat), k': (nat, nat), f: nat)
    requires k in ptes && k' in ptes && k != k' && ptes[k].frame == f && ptes[k'].frame == f
    ensures |Refs(ptes, f)| > 1
  {
    assert {k, k'} <= Refs(ptes, f);
    assert |Refs(ptes, f) - {k, k'}| == |Refs(ptes, f)| - |{k, k'}|;
  }

  lemma RefsOne(ptes: PageTables, k: (nat, nat))
    requires k in ptes
    ensures |Refs(ptes, ptes[k].frame)| >= 1
  {
    assert k in Refs(ptes, ptes[k].frame);
  }

  // ---------------------------------------------------------------- the kernel's state

  datatype Kernel = Kernel(
    frames: seq<Frame>,           // page_table[]
    free: seq<nat>,               // the free ring, page_head first
    ptes: PageTables,             // every process's page tables, by (process, page)
    vmas: map<nat, seq<Vma>>)     // every process's vma_table

  ghost predicate CountsExact(s: Kernel) {
    forall f :: 0 <= f < |s.frames| ==> s.frames[f].count == |Refs(s.ptes, f)|
  }

  ghost predicate FreeExact(s: Kernel) {
    && (forall i, j :: 0 <= i < j < |s.free| ==> s.free[i] != s.free[j])
    && (forall i :: 0 <= i < |s.free| ==> s.free[i] < |s.frames|)
    && (forall f :: 0 <= f < |s.frames| ==> (f in s.free <==> s.frames[f].count == 0))
    && (forall f :: 0 <= f < |s.frames| && s.frames[f].count == 0 ==> !s.frames[f].cow)
  }

  function ProtOf(s: Kernel, p: nat, v: nat): Option<Prot> {
    if p in s.vmas then ProtAt(s.vmas[p], v) else None
  }

  /** What holds of one page-table entry: a shared frame is never writable, and
      the copy-on-write mark sits exactly where a write may still have to be allowed. */
  ghost predicate EntryOk(s: Kernel, k: (nat, nat))
    requires k in s.ptes
  {
    var e := s.ptes[k];
    var prot := ProtOf(s, k.0, k.1);
    && e.frame < |s.frames|
    && prot in {Some(ReadOnly), Some(ReadWrite)}
    && (e.rw ==> prot == Some(ReadWrite) && s.frames[e.frame].count == 1)
    && (s.frames[e.frame].cow ==> prot == Some(ReadWrite))
    && (!e.rw && prot == Some(ReadWrite) ==> s.frames[e.frame].cow)
  }

  ghost predicate EntriesOk(s: Kernel) {
    forall k :: k in s.ptes ==> EntryOk(s, k)
  }

  ghost predicate Inv(s: Kernel) {
    && CountsExact(s)
    && FreeExact(s)
    && EntriesOk(s)
    && (forall p :: p in s.vmas ==> Sorted(s.vmas[p]))
  }

  /** The page process `p` would read at `v`: zeros until it is first touched. */
  ghost function View(s: Kernel, p: nat, v: nat): Page {
    if (p, v) in s.ptes && s.ptes[(p, v)].frame < |s.frames|
    then s.frames[s.ptes[(p, v)].frame].data else ZeroPage()
  }

  ghost predicate SameViews(s: Kernel, t: Kernel) {
    forall p: nat, v: nat :: View(s, p, v) == View(t, p, v)
  }

  // ---------------------------------------------------------------- the steps on the state

  /** Entry `k` is given the first free frame, holding `data`. */
  function MapFresh(s: Kernel, k: (nat, nat), rw: bool, data: Page): Kernel
    requires s.free != [] && s.free[0] < |s.frames|
  {
    var f := s.free[0];
    s.(free := s.free[1..],
       frames := s.frames[f := s.frames[f].(count := 1, data := data)],
       ptes := s.ptes[k := Pte(f, rw)])
  }

  /** release_page: the last reference puts the frame at the head of the free ring. */
  function Release(s: Kernel, f: nat): Kernel
    requires f < |s.frames|
  {
    var fr := s.frames[f];
    if fr.count == 0 then s
    else if fr.count == 1 then
      s.(frames := s.frames[f := fr.(count := 0, cow := false)], free := [f] + s.free)
    else s.(frames := s.frames[f := fr.(count := fr.count - 1)])
  }

  /** The frame given up last is the first to be given again. */
  lemma LastOutFirstIn(s: Kernel, f: nat, k: (nat, nat), rw: bool, data: Page)
    requires f < |s.frames| && s.frames[f].count == 1 && f !in s.free
    ensures var t := Release(s, f);
      t.free != [] && t.free[0] < |t.frames| && MapFresh(t, k, rw, data).ptes[k].frame == f && MapFresh(t, k, rw, data).free == s.free
  {
  }

  lemma FreeFrame(s: Kernel, f: nat)
    requires CountsExact(s) && FreeExact(s) && f in s.free
    ensures f < |s.frames| && forall k :: k in s.ptes ==> s.ptes[k].frame != f
  {
    forall k | k in s.ptes ensures s.ptes[k].frame != f {
      if s.ptes[k].frame == f { RefsOne(s.ptes, k); }
    }
  }

  lemma MapFreshFree(s: Kernel, k: (nat, nat), rw: bool, data: Page)
    requires FreeExact(s) && s.free != []
    ensures FreeExact(MapFresh(s, k, rw, data))
  {
    var t := MapFresh(s, k, rw, data);
    forall f | 0 <= f < |t.frames| ensures f in t.free <==> t.frames[f].count == 0 {
      if f in s.free && f != s.free[0] {
        var i :| 0 <= i < |s.free| && s.free[i] == f;
        assert t.free[i - 1] == f;
      }
    }
  }

  lemma MapFreshCounts(s: Kernel, k: (nat, nat), rw: bool, data: Page)
    requires CountsExact(s) && FreeExact(s) && s.free != [] && k !in s.ptes
    ensures CountsExact(MapFresh(s, k, rw, data))
  {
    var f := s.free[0];
    forall g | 0 <= g < |s.frames|
      ensures MapFresh(s, k, rw, data).frames[g].count == |Refs(s.ptes[k := Pte(f, rw)], g)|
    {
      RefsUpdate(s.ptes, k, Pte(f, rw), g);
    }
  }

  /** A demand-zero page: every invariant holds and nobody's view changes. */
  lemma MapZero(s: Kernel, k: (nat, nat), prot: Prot)
    requires Inv(s) && s.free != [] && k !in s.ptes
    requires ProtOf(s, k.0, k.1) == Some(prot) && prot != ProtNone
    ensures Inv(MapFresh(s, k, prot == ReadWrite, ZeroPage()))
    ensures SameViews(s, MapFresh(s, k, prot == ReadWrite, ZeroPage()))
  {
    var t := MapFresh(s, k, prot == ReadWrite, ZeroPage());
    MapFreshFree(s, k, prot == ReadWrite, ZeroPage());
    MapFreshCounts(s, k, prot == ReadWrite, ZeroPage());
    FreeFrame(s, s.free[0]);
    forall j | j in t.ptes ensures EntryOk(t, j) {
      if j != k { assert EntryOk(s, j); }
    }
    forall p: nat, v: nat ensures View(s, p, v) == View(t, p, v) {
      if (p, v) in s.ptes { assert EntryOk(s, (p, v)); }
    }
  }

  /** The write fault on a shared frame: the faulting entry gets a private copy. */
  function CopyShared(s: Kernel, k: (nat, nat)): Kernel
    requires s.free != [] && s.free[0] < |s.frames|
    requires k in s.ptes && s.ptes[k].frame < |s.frames|
  {
    var f := s.ptes[k].frame;
    Release(MapFresh(s, k, true, s.frames[f].data), f)
  }

  lemma CopySharedCounts(s: Kernel, k: (nat, nat))
    requires Inv(s) && s.free != [] && k in s.ptes && s.frames[s.ptes[k].frame].count > 1
    ensures CountsExact(CopyShared(s, k)) && FreeExact(CopyShared(s, k))
  {
    var f, t := s.ptes[k].frame, CopyShared(s, k);
    MapFreshFree(s, k, true, s.frames[f].data);
    forall g | 0 <= g < |s.frames| ensures t.frames[g].count == |Refs(t.ptes, g)| {
      RefsUpdate(s.ptes, k, Pte(s.free[0], true), g);
    }
  }

  lemma CopySharedKeeps(s: Kernel, k: (nat, nat))
    requires Inv(s) && s.free != [] && k in s.ptes && s.frames[s.ptes[k].frame].count > 1
    requires s.frames[s.ptes[k].frame].cow
    ensures Inv(CopyShared(s, k)) && SameViews(s, CopyShared(s, k))
  {
    var t := CopyShared(s, k);
    CopySharedCounts(s, k);
    FreeFrame(s, s.free[0]);
    assert EntryOk(s, k);
    forall j | j in t.ptes ensures EntryOk(t, j) {
      if j != k { assert EntryOk(s, j); }
    }
    forall p: nat, v: nat ensures View(s, p, v) == View(t, p, v) {
      if (p, v) in s.ptes { assert EntryOk(s, (p, v)); }
    }
  }

  /** The write fault of the last owner: the entry only becomes writable again. */
  lemma ReclaimKeeps(s: Kernel, k: (nat, nat))
    requires Inv(s) && k in s.ptes
    requires s.frames[s.ptes[k].frame].count == 1 && s.frames[s.ptes[k].frame].cow
    ensures var t := s.(ptes := s.ptes[k := Pte(s.ptes[k].frame, true)]);
            Inv(t) && SameViews(s, t)
  {
    var f := s.ptes[k].frame;
    var t := s.(ptes := s.ptes[k := Pte(f, true)]);
    assert EntryOk(s, k);
    ReclaimCounts(s, k);
    hide CountsExact, FreeExact, Sorted;
    forall j | j in t.ptes ensures EntryOk(t, j) {
      if j != k { assert EntryOk(s, j); }
    }
  }

  lemma ReclaimCounts(s: Kernel, k: (nat, nat))
    requires CountsExact(s) && FreeExact(s) && k in s.ptes
    ensures var t := s.(ptes := s.ptes[k := Pte(s.ptes[k].frame, true)]); CountsExact(t) && FreeExact(t)
  {
    var e := Pte(s.ptes[k].frame, true);
    forall g | 0 <= g < |s.frames| ensures s.frames[g].count == |Refs(s.ptes[k := e], g)| {
      RefsUpdate(s.ptes, k, e, g);
    }
  }

  /** A store through a writable entry reaches one process only. */
  function Store(s: Kernel, k: (nat, nat), off: nat, b: Byte): Kernel
    requires k in s.ptes && s.ptes[k].frame < |s.frames| && off < PAGE_SIZE
  {
    var f := s.ptes[k].frame;
    s.(frames := s.frames[f := s.frames[f].(data := s.frames[f].data[off := b])])
  }

  lemma StoreIsPrivate(s: Kernel, k: (nat, nat), off: nat, b: Byte)
    requires Inv(s) && k in s.ptes && s.ptes[k].rw && off < PAGE_SIZE
    ensures Inv(Store(s, k, off, b))
    ensures forall p: nat, v: nat :: View(Store(s, k, off, b), p, v) ==
                                     if (p, v) == k then View(s, p, v)[off := b] else View(s, p, v)
  {
    var f, t := s.ptes[k].frame, Store(s, k, off, b);
    assert EntryOk(s, k);
    forall j | j in t.ptes ensures EntryOk(t, j) {
      assert EntryOk(s, j);
    }
    forall p: nat, v: nat
      ensures View(t, p, v) == if (p, v) == k then View(s, p, v)[off := b] else View(s, p, v)
    {
      if (p, v) in s.ptes && (p, v) != k && s.ptes[(p, v)].frame == f {
        RefsOther(s.ptes, k, (p, v), f);
      }
    }
  }

  /** One page of clone_pages: parent and child share the frame, neither may write it. */
  function ClonePage(s: Kernel, p: nat, c: nat, v: nat, prot: Prot): Kernel
    requires (p, v) in s.ptes && s.ptes[(p, v)].frame < |s.frames|
  {
    var f := s.ptes[(p, v)].frame;
    var e := Pte(f, false);
    var fr := s.frames[f];
    s.(ptes := s.ptes[(p, v) := e][(c, v) := e],
       frames := s.frames[f := fr.(cow := fr.cow || prot == ReadWrite, count := fr.count + 1)])
  }

  lemma ClonePageCounts(s: Kernel, p: nat, c: nat, v: nat, prot: Prot)
    requires Inv(s) && p != c && (p, v) in s.ptes && (c, v) !in s.ptes
    ensures s.ptes[(p, v)].frame < |s.frames|
    ensures CountsExact(ClonePage(s, p, c, v, prot)) && FreeExact(ClonePage(s, p, c, v, prot))
  {
    assert EntryOk(s, (p, v));
    var f, t := s.ptes[(p, v)].frame, ClonePage(s, p, c, v, prot);
    RefsOne(s.ptes, (p, v));
    forall g | 0 <= g < |s.frames| ensures t.frames[g].count == |Refs(t.ptes, g)| {
      RefsUpdate(s.ptes, (p, v), Pte(f, false), g);
      RefsUpdate(s.ptes[(p, v) := Pte(f, false)], (c, v), Pte(f, false), g);
    }
  }

  lemma ClonePageKeeps(s: Kernel, p: nat, c: nat, v: nat, prot: Prot)
    requires Inv(s) && p != c && (p, v) in s.ptes && (c, v) !in s.ptes
    requires ProtOf(s, p, v) == ProtOf(s, c, v) == Some(prot)
    ensures s.ptes[(p, v)].frame < |s.frames|
    ensures Inv(ClonePage(s, p, c, v, prot))
    ensures forall q: nat, u: nat :: View(ClonePage(s, p, c, v, prot), q, u) ==
                                     if (q, u) == (c, v) then View(s, p, v) else View(s, q, u)
  {
    ClonePageCounts(s, p, c, v, prot);
    ClonePageEntries(s, p, c, v, prot);
    hide CountsExact, FreeExact, Sorted, ProtOf;
    var f, t := s.ptes[(p, v)].frame, ClonePage(s, p, c, v, prot);
    forall q: nat, u: nat
      ensures View(t, q, u) == if (q, u) == (c, v) then View(s, p, v) else View(s, q, u)
    {
      if (q, u) in s.ptes { assert EntryOk(s, (q, u)); }
    }
  }

  lemma ClonePageEntries(s: Kernel, p: nat, c: nat, v: nat, prot: Prot)
    requires Inv(s) && p != c && (p, v) in s.ptes && (c, v) !in s.ptes
    requires ProtOf(s, p, v) == ProtOf(s, c, v) == Some(prot)
    ensures s.ptes[(p, v)].frame < |s.frames| && EntriesOk(ClonePage(s, p, c, v, prot))
  {
    hide FreeExact, Sorted, ProtAt, Refs;
    var f, t := s.ptes[(p, v)].frame, ClonePage(s, p, c, v, prot);
    assert EntryOk(s, (p, v));
    forall j | j in t.ptes ensures EntryOk(t, j) {
      if j != (p, v) && j != (c, v) {
        assert EntryOk(s, j);
        if s.ptes[j].frame == f { RefsOther(s.ptes, (p, v), j, f); }
      }
    }
  }

  /** Dropping one entry: the page reads as zeros again, every other view stays. */
  function UnmapPage(s: Kernel, k: (nat, nat)): Kernel
    requires k in s.ptes && s.ptes[k].frame < |s.frames|
  {
    Release(s.(ptes := s.ptes - {k}), s.ptes[k].frame)
  }

  lemma UnmapPageCounts(s: Kernel, k: (nat, nat))
    requires Inv(s) && k in s.ptes
    ensures s.ptes[k].frame < |s.frames|
    ensures CountsExact(UnmapPage(s, k)) && FreeExact(UnmapPage(s, k))
  {
    assert EntryOk(s, k);
    var f, t := s.ptes[k].frame, UnmapPage(s, k);
    RefsOne(s.ptes, k);
    forall g | 0 <= g < |s.frames| ensures t.frames[g].count == |Refs(t.ptes, g)| {
      RefsRemove(s.ptes, k, g);
    }
    forall g | 0 <= g < |t.frames| ensures g in t.free <==> t.frames[g].count == 0 {
      assert g in t.free <==> g in s.free || (g == f && s.frames[f].count == 1);
    }
  }

  lemma UnmapPageEntries(s: Kernel, k: (nat, nat))
    requires Inv(s) && k in s.ptes
    ensures s.ptes[k].frame < |s.frames|
    ensures EntriesOk(UnmapPage(s, k))
  {
    assert EntryOk(s, k);
    var f, t := s.ptes[k].frame, UnmapPage(s, k);
    forall j | j in t.ptes ensures EntryOk(t, j) {
      assert EntryOk(s, j);
      if s.ptes[j].frame == f { RefsOther(s.ptes, k, j, f); }
    }
  }

  lemma UnmapPageViews(s: Kernel, k: (nat, nat))
    requires k in s.ptes && s.ptes[k].frame < |s.frames|
    ensures forall q: nat, u: nat :: View(UnmapPage(s, k), q, u) ==
                                     if (q, u) == k then ZeroPage() else View(s, q, u)
  {
    var t := UnmapPage(s, k);
    assert |t.frames| == |s.frames| && forall g :: 0 <= g < |s.frames| ==> t.frames[g].data == s.frames[g].data;
  }

  lemma UnmapPageKeeps(s: Kernel, k: (nat, nat))
    requires Inv(s) && k in s.ptes
    ensures s.ptes[k].frame < |s.frames|
    ensures Inv(UnmapPage(s, k))
    ensures forall q: nat, u: nat :: View(UnmapPage(s, k), q, u) ==
                                     if (q, u) == k then ZeroPage() else View(s, q, u)
  {
    UnmapPageCounts(s, k);
    UnmapPageEntries(s, k);
    UnmapPageViews(s, k);
  }

  // ---------------------------------------------------------------- region lists

  predicate Fits(rs: seq<Vma>, r: Vma) {
    && r.start < r.end
    && forall i :: 0 <= i < |rs| ==> rs[i].end <= r.start || r.end <= rs[i].start
  }

  function InsertRegion(rs: seq<Vma>, r: Vma): seq<Vma> {
    if rs == [] || r.start < rs[0].start then [r] + rs
    else [rs[0]] + InsertRegion(rs[1..], r)
  }

  lemma {:induction false} InsertRegionLower(rs: seq<Vma>, r: Vma, bound: nat)
    requires bound <= r.start && forall i :: 0 <= i < |rs| ==> bound <= rs[i].start
    ensures forall i :: 0 <= i < |InsertRegion(rs, r)| ==> bound <= InsertRegion(rs, r)[i].start
  {
    if !(rs == [] || r.start < rs[0].start) { InsertRegionLower(rs[1..], r, bound); }
  }

  lemma {:induction false} InsertRegionSorted(rs: seq<Vma>, r: Vma)
    requires Sorted(rs) && Fits(rs, r)
    ensures Sorted(InsertRegion(rs, r))
  {
    if rs == [] || r.start < rs[0].start {
    } else {
      InsertRegionSorted(rs[1..], r);
      InsertRegionLower(rs[1..], r, rs[0].end);
    }
  }

  lemma {:induction false} InsertRegionProt(rs: seq<Vma>, r: Vma, v: nat)
    requires Sorted(rs) && Fits(rs, r)
    ensures ProtAt(InsertRegion(rs, r), v) == if Contains(r, v) then Some(r.prot) else ProtAt(rs, v)
  {
    if rs == [] || r.start < rs[0].start {
      assert InsertRegion(rs, r)[1..] == rs;
    } else {
      assert InsertRegion(rs, r)[1..] == InsertRegion(rs[1..], r);
      InsertRegionProt(rs[1..], r, v);
    }
  }

  /** What is left of a region without the pages from `a` to `b`. */
  function Remains(r: Vma, a: nat, b: nat): seq<Vma> {
    (if r.start < a then [r.(end := a)] else []) + (if b < r.end then [r.(start := b)] else [])
  }

  function Cut(rs: seq<Vma>, i: nat, a: nat, b: nat): seq<Vma>
    requires i < |rs|
  {
    rs[..i] + (Remains(rs[i], a, b) + rs[i + 1..])
  }

  predicate Inside(r: Vma, a: nat, b: nat) {
    r.start <= a < b <= r.end
  }

  lemma CutSorted(rs: seq<Vma>, i: nat, a: nat, b: nat)
    requires Sorted(rs) && i < |rs| && Inside(rs[i], a, b)
    ensures Sorted(Cut(rs, i, a, b))
  {
    var mid, back := Remains(rs[i], a, b), rs[i + 1..];
    forall j | 0 <= j < |back| ensures rs[i].end <= back[j].start { assert back[j] == rs[i + 1 + j]; }
    JoinSorted(mid, back, rs[i].end);
    forall j | 0 <= j < |rs[..i]| ensures rs[..i][j].end <= rs[i].start { assert rs[..i][j] == rs[j]; }
    forall j | 0 <= j < |mid + back| ensures rs[i].start <= (mid + back)[j].start { }
    JoinSorted(rs[..i], mid + back, rs[i].start);
  }

  lemma JoinSorted(x: seq<Vma>, y: seq<Vma>, bound: nat)
    requires Sorted(x) && Sorted(y) && (forall i :: 0 <= i < |x| ==> x[i].end <= bound) && forall j :: 0 <= j < |y| ==> bound <= y[j].start
    ensures Sorted(x + y)
  {
  }

  lemma {:induction false} CutProt(rs: seq<Vma>, i: nat, a: nat, b: nat, v: nat)
    requires Sorted(rs) && i < |rs| && Inside(rs[i], a, b)
    ensures ProtAt(Cut(rs, i, a, b), v) == if a <= v < b then None else ProtAt(rs, v)
  {
    if i == 0 {
      var mid := Remains(rs[0], a, b);
      assert Cut(rs, i, a, b) == mid + rs[1..];
      ProtAtJoin(mid, rs[1..], v);
      RemainsProt(rs[0], a, b, v);
      NotAfter(rs, v);
    } else {
      assert Cut(rs, i, a, b)[1..] == Cut(rs[1..], i - 1, a, b);
      assert a <= v < b ==> !Contains(rs[0], v);
      CutProt(rs[1..], i - 1, a, b, v);
    }
  }

  lemma {:induction false} ProtAtJoin(x: seq<Vma>, y: seq<Vma>, v: nat)
    ensures ProtAt(x + y, v) == if ProtAt(x, v).Some? then ProtAt(x, v) else ProtAt(y, v)
  {
    if x == [] {
      assert x + y == y;
    } else {
      assert (x + y)[1..] == x[1..] + y;
      ProtAtJoin(x[1..], y, v);
    }
  }

  lemma RemainsProt(r: Vma, a: nat, b: nat, v: nat)
    requires Inside(r, a, b)
    ensures ProtAt(Remains(r, a, b), v) == if Contains(r, v) && !(a <= v < b) then Some(r.prot) else None
  {
    var x, y := if r.start < a then [r.(end := a)] else [], if b < r.end then [r.(start := b)] else [];
    assert x != [] ==> x[1..] == [];
    assert y != [] ==> y[1..] == [];
    ProtAtJoin(x, y, v);
  }

  /** A page of the first region is in no other. */
  lemma NotAfter(rs: seq<Vma>, v: nat)
    requires Sorted(rs) && rs != []
    ensures Contains(rs[0], v) ==> ProtAt(rs[1..], v) == None
  {
    ProtAtCovered(rs[1..], v);
    assert forall j :: 0 <= j < |rs| - 1 ==> rs[1..][j] == rs[j + 1];
  }

  /** Replacing region lists keeps the invariant when no present page sees its protection change. */
  lemma RegionsReplaced(s: Kernel, vmas: map<nat, seq<Vma>>)
    requires Inv(s) && forall p :: p in vmas ==> Sorted(vmas[p])
    requires forall k :: k in s.ptes ==> ProtOf(s, k.0, k.1) == ProtOf(s.(vmas := vmas), k.0, k.1)
    ensures Inv(s.(vmas := vmas)) && SameViews(s, s.(vmas := vmas))
  {
    forall k | k in s.ptes ensures EntryOk(s.(vmas := vmas), k) {
      assert EntryOk(s, k);
    }
  }

  // ---------------------------------------------------------------- what fork has done so far

  lemma NoEntries(s: Kernel, c: nat)
    requires Inv(s) && c !in s.vmas
    ensures forall v: nat :: (c, v) !in s.ptes
  {
    forall k | k in s.ptes ensures k.0 != c {
      assert EntryOk(s, k);
    }
  }

  /** From `base`, the child `c` has received the parent's pages below `n`. */
  ghost predicate Cloned(base: Kernel, t: Kernel, p: nat, c: nat, n: nat) {
    && (forall q: nat, u: nat :: View(t, q, u) == if q == c && u < n then View(base, p, u) else View(base, q, u))
    && (forall u: nat :: (p, u) in t.ptes <==> (p, u) in base.ptes)
    && (forall u: nat :: (c, u) in t.ptes <==> u < n && (p, u) in base.ptes)
  }

  lemma ClonedNext(base: Kernel, mid: Kernel, t: Kernel, p: nat, c: nat, n: nat, e: Pte)
    requires p != c && Cloned(base, mid, p, c, n) && (p, n) in mid.ptes
    requires t.ptes == mid.ptes[(p, n) := e][(c, n) := e]
    requires forall q: nat, u: nat :: View(t, q, u) == if (q, u) == (c, n) then View(mid, p, n) else View(mid, q, u)
    ensures Cloned(base, t, p, c, n + 1)
  {
    assert View(mid, p, n) == View(base, p, n);
  }

  /** Pages the parent never touched need no work. */
  lemma ClonedGap(base: Kernel, t: Kernel, p: nat, c: nat, n: nat, m: nat)
    requires Cloned(base, t, p, c, n) && n <= m
    requires forall u: nat :: (c, u) !in base.ptes
    requires forall u: nat :: n <= u < m ==> (p, u) !in base.ptes
    ensures Cloned(base, t, p, c, m)
  {
  }

  lemma InvParts(s: Kernel, p: nat)
    requires Inv(s) && p in s.vmas
    ensures EntriesOk(s) && Sorted(s.vmas[p])
  {
  }

  /** The child has the parent's regions and no page yet. */
  lemma ForkStart(s: Kernel, p: nat, c: nat)
    requires Inv(s) && p in s.vmas && c !in s.vmas
    ensures var base := s.(vmas := s.vmas[c := s.vmas[p]]);
      Inv(base) && SameViews(s, base) && Cloned(base, base, p, c, 0) && forall u: nat :: (c, u) !in base.ptes
  {
    hide View, Sorted, CountsExact, FreeExact;
    NoEntries(s, c);
    RegionsReplaced(s, s.vmas[c := s.vmas[p]]);
  }

  lemma ForkViews(s: Kernel, base: Kernel, t: Kernel, p: nat, c: nat)
    requires SameViews(s, base) && forall q: nat, u: nat :: View(t, q, u) == View(base, if q == c then p else q, u)
    ensures forall q: nat, u: nat :: View(t, q, u) == View(s, if q == c then p else q, u)
  {
    hide View;
  }

  /** Where the first `i` regions end. */
  function Reach(rs: seq<Vma>, i: nat): nat
    requires i <= |rs|
  {
    if i == 0 then 0 else rs[i - 1].end
  }

  /** Between two neighbouring regions, and after the last, no page is present. */
  lemma NothingBetween(s: Kernel, p: nat, i: nat)
    requires EntriesOk(s) && p in s.vmas && Sorted(s.vmas[p]) && i <= |s.vmas[p]|
    ensures forall u: nat :: Reach(s.vmas[p], i) <= u && (i < |s.vmas[p]| ==> u < s.vmas[p][i].start)
                             ==> (p, u) !in s.ptes
  {
    var rs := s.vmas[p];
    forall u: nat | (p, u) in s.ptes
      ensures !(Reach(rs, i) <= u && (i < |rs| ==> u < rs[i].start))
    {
      assert EntryOk(s, (p, u));
      ProtAtCovered(rs, u);
      var j :| 0 <= j < |rs| && Contains(rs[j], u);
      if j < i - 1 { assert rs[j].end <= rs[i - 1].start; }
      if j > i { assert rs[i].end <= rs[j].start; }
    }
  }

  lemma ClonedUpTo(base: Kernel, t: Kernel, p: nat, c: nat, i: nat)
    requires EntriesOk(base) && p in base.vmas && Sorted(base.vmas[p]) && i < |base.vmas[p]|
    requires Cloned(base, t, p, c, Reach(base.vmas[p], i))
    requires forall u: nat :: (c, u) !in base.ptes
    ensures Cloned(base, t, p, c, base.vmas[p][i].start)
  {
    NothingBetween(base, p, i);
    if i > 0 { assert base.vmas[p][i - 1].end <= base.vmas[p][i].start; }
    ClonedGap(base, t, p, c, Reach(base.vmas[p], i), base.vmas[p][i].start);
  }

  /** After the last region, the child's views are the parent's. */
  lemma ClonedAll(base: Kernel, t: Kernel, p: nat, c: nat)
    requires EntriesOk(base) && p in base.vmas && Sorted(base.vmas[p])
    requires Cloned(base, t, p, c, Reach(base.vmas[p], |base.vmas[p]|))
    requires forall u: nat :: (c, u) !in base.ptes
    ensures forall q: nat, u: nat :: View(t, q, u) == View(base, if q == c then p else q, u)
  {
    NothingBetween(base, p, |base.vmas[p]|);
  }

  // ---------------------------------------------------------------- what unmapping has done so far

  /** From `base`, process `p` has lost its pages from `lo` to `n`. */
  ghost predicate Unmapped(base: Kernel, t: Kernel, p: nat, lo: nat, n: nat) {
    && (forall q: nat, u: nat :: View(t, q, u) ==
                                 if q == p && lo <= u < n then ZeroPage() else View(base, q, u))
    && (forall u: nat :: lo <= u < n ==> (p, u) !in t.ptes)
  }

  lemma UnmapOneMore(base: Kernel, mid: Kernel, t: Kernel, p: nat, lo: nat, n: nat)
    requires Unmapped(base, mid, p, lo, n) && lo <= n
    requires (p, n) !in mid.ptes ==> t == mid
    requires (p, n) in mid.ptes ==>
               && t.ptes == mid.ptes - {(p, n)}
               && (forall q: nat, u: nat :: View(t, q, u) == if (q, u) == (p, n) then ZeroPage() else View(mid, q, u))
    ensures Unmapped(base, t, p, lo, n + 1)
  {
  }

  lemma RangeGone(s: Kernel, p: nat, i: nat, a: nat, b: nat)
    requires Inv(s) && p in s.vmas && i < |s.vmas[p]| && Inside(s.vmas[p][i], a, b)
    requires forall u: nat :: a <= u < b ==> (p, u) !in s.ptes
    ensures var t := s.(vmas := s.vmas[p := Cut(s.vmas[p], i, a, b)]);
            Inv(t) && SameViews(s, t)
  {
    var rs := s.vmas[p];
    var vmas := s.vmas[p := Cut(rs, i, a, b)];
    CutSorted(rs, i, a, b);
    forall k | k in s.ptes ensures ProtOf(s, k.0, k.1) == ProtOf(s.(vmas := vmas), k.0, k.1) {
      if k.0 == p { CutProt(rs, i, a, b, k.1); }
    }
    hide Sorted, Cut;
    RegionsReplaced(s, vmas);
  }

  /** From `s`, process `p` has lost the pages from `a` to `b`, and nobody else anything. */
  ghost predicate Gone(s: Kernel, t: Kernel, p: nat, a: nat, b: nat) {
    && (forall q: nat, u: nat :: View(t, q, u) == if q == p && a <= u < b then ZeroPage() else View(s, q, u))
    && (forall q: nat, u: nat :: ProtOf(t, q, u) == if q == p && a <= u < b then None else ProtOf(s, q, u))
  }

  lemma GoneNone(s: Kernel, p: nat, a: nat)
    ensures Gone(s, s, p, a, a)
  {
  }

  lemma GoneMore(s: Kernel, t: Kernel, u: Kernel, p: nat, i: nat, a: nat, b: nat, c: nat)
    requires Inv(t) && Gone(s, t, p, a, b) && a <= b < c && p in t.vmas && i < |t.vmas[p]| && Inside(t.vmas[p][i], b, c)
    requires u.vmas == t.vmas[p := Cut(t.vmas[p], i, b, c)]
    requires forall q: nat, v: nat :: View(u, q, v) == if q == p && b <= v < c then ZeroPage() else View(t, q, v)
    ensures Gone(s, u, p, a, c)
  {
    hide View, Cut, ProtAt;
    forall v: nat ensures ProtAt(u.vmas[p], v) == if b <= v < c then None else ProtAt(t.vmas[p], v) {
      CutProt(t.vmas[p], i, b, c, v);
    }
    forall q: nat, v: nat ensures ProtOf(u, q, v) == if q == p && a <= v < c then None else ProtOf(s, q, v) {
      assert ProtOf(t, q, v) == if q == p && a <= v < b then None else ProtOf(s, q, v);
    }
    forall q: nat, v: nat ensures View(u, q, v) == if q == p && a <= v < c then ZeroPage() else View(s, q, v) {
      assert View(t, q, v) == if q == p && a <= v < b then ZeroPage() else View(s, q, v);
    }
  }

  /** A process without regions has no pages. */
  lemma NoRegions(s: Kernel, p: nat)
    requires Inv(s) && p in s.vmas && s.vmas[p] == []
    ensures (forall v: nat :: (p, v) !in s.ptes) && Inv(s.(vmas := s.vmas - {p})) && SameViews(s, s.(vmas := s.vmas - {p}))
  {
    forall k | k in s.ptes ensures k.0 != p {
      assert EntryOk(s, k);
    }
    RegionsReplaced(s, s.vmas - {p});
  }

  // ---------------------------------------------------------------- the kernel

  /** A page that may be touched and has not been. */
  predicate Absent(s: Kernel, p: nat, v: nat) {
    (p, v) !in s.ptes && ProtOf(s, p, v) !in {None, Some(ProtNone)}
  }

  /** A page that may be written and is in a frame that others have too. */
  predicate Shared(s: Kernel, p: nat, v: nat) {
    && (p, v) in s.ptes && ProtOf(s, p, v) == Some(ReadWrite)
    && s.ptes[(p, v)].frame < |s.frames| && s.frames[s.ptes[(p, v)].frame].count > 1
  }

  class Memory {
    var frames: seq<Frame>
    var free: seq<nat>
    var ptes: PageTables
    var vmas: map<nat, seq<Vma>>

    function S(): Kernel
      reads this
    {
      Kernel(frames, free, ptes, vmas)
    }

    constructor (n: nat)
      ensures Inv(S()) && S().vmas == map[] && S().ptes == map[] && |S().frames| == n
    {
      frames := seq(n, _ => Frame(0, false, ZeroPage()));
      free := seq(n, i => i);
      ptes := map[];
      vmas := map[];
      new;
      forall f | 0 <= f < n ensures frames[f].count == |Refs(ptes, f)| && f in free {
        assert Refs(ptes, f) == {};
        assert free[f] == f;
      }
    }

    /** get_free_page: the head of the free ring, with one reference. */
    method GetFreePage() returns (r: Option<nat>)
      requires forall i :: 0 <= i < |free| ==> free[i] < |frames|
      modifies this
      ensures old(free) == [] ==> r == None && S() == old(S())
      ensures old(free) != [] ==>
                && r == Some(old(free[0]))
                && S() == old(S()).(free := old(free[1..]),
                                    frames := old(frames)[r.value := old(frames)[r.value].(count := 1)])
    {
      if free == [] { return None; }
      var f := free[0];
      free := free[1..];
      frames := frames[f := frames[f].(count := 1)];
      return Some(f);
    }

    method ReleasePage(f: nat)
      requires f < |frames|
      modifies this
      ensures S() == Release(old(S()), f)
    {
      if frames[f].count == 0 { return; }
      frames := frames[f := frames[f].(count := frames[f].count - 1)];
      if frames[f].count > 0 { return; }
      free := [f] + free;
      frames := frames[f := frames[f].(cow := false)];
    }

    method FindVmaRegion(p: nat, v: nat) returns (r: Option<Prot>)
      requires p in vmas
      ensures r == ProtOf(S(), p, v)
    {
      var rs := vmas[p];
      var i := 0;
      while i < |rs|
        invariant 0 <= i <= |rs|
        invariant ProtAt(rs, v) == ProtAt(rs[i..], v)
      {
        if Contains(rs[i], v) { return Some(rs[i].prot); }
        i := i + 1;
      }
      return None;
    }

    /** The anonymous part of page_not_present: a zero page is mapped, and no view changes. */
    method PageNotPresent(p: nat, v: nat) returns (r: Outcome)
      requires Inv(S()) && p in vmas && (p, v) !in ptes
      modifies this
      ensures |frames| == old(|frames|)
      ensures Inv(S()) && vmas == old(vmas) && SameViews(old(S()), S())
      ensures r in {Stored, Segv, Killed}
      ensures r.Segv? <==> ProtOf(S(), p, v) in {None, Some(ProtNone)}
      ensures r.Killed? <==> old(free) == [] && !r.Segv?
      ensures r.Killed? ==> S() == old(S())
      ensures r.Stored? ==> (p, v) in ptes && (ptes[(p, v)].rw <==> ProtOf(S(), p, v) == Some(ReadWrite))
    {
      var prot := FindVmaRegion(p, v);
      if prot == None || prot.value == ProtNone { return Segv; }
      var pg := GetFreePage();
      if pg == None { return Killed; }
      var f := pg.value;
      ptes := ptes[(p, v) := Pte(f, prot.value == ReadWrite)];
      frames := frames[f := frames[f].(data := ZeroPage())];
      assert S() == MapFresh(old(S()), (p, v), prot.value == ReadWrite, ZeroPage());
      MapZero(old(S()), (p, v), prot.value);
      return Stored;
    }

    /** page_protection_violation: the process may not write there, or it now owns a
        writable frame that holds what it saw. */
    method PageProtectionViolation(p: nat, v: nat) returns (r: Outcome)
      requires Inv(S()) && (p, v) in ptes && !ptes[(p, v)].rw
      modifies this
      ensures |frames| == old(|frames|)
      ensures Inv(S()) && vmas == old(vmas) && SameViews(old(S()), S())
      ensures r in {Stored, Segv, Killed}
      ensures r.Segv? <==> ProtOf(S(), p, v) != Some(ReadWrite)
      ensures r.Killed? <==> old(free) == [] && !r.Segv? && Shared(old(S()), p, v)
      ensures r.Killed? ==> S() == old(S())
      ensures r.Stored? ==> (p, v) in ptes && ptes[(p, v)].rw
    {
      var k := (p, v);
      assert EntryOk(S(), k);
      var f := ptes[k].frame;
      if frames[f].count > 1 {
        if !frames[f].cow { return Segv; }
        var pg := GetFreePage();
        if pg == None { return Killed; }
        var g := pg.value;
        frames := frames[g := frames[g].(data := frames[f].data)];
        ptes := ptes[k := Pte(g, true)];
        assert S() == MapFresh(old(S()), k, true, old(frames[f].data));
        ReleasePage(f);
        CopySharedKeeps(old(S()), k);
        return Stored;
      } else if frames[f].count == 1 {
        if !frames[f].cow { return Segv; }
        ptes := ptes[k := Pte(f, true)];
        ReclaimKeeps(old(S()), k);
        return Stored;
      }
      RefsOne(ptes, k);
      assert false;
    }

    /** A load: the fault it may take first, then the byte. */
    method Load(p: nat, v: nat, off: nat) returns (r: Outcome)
      requires Inv(S()) && p in vmas && off < PAGE_SIZE
      modifies this
      ensures |frames| == old(|frames|)
      ensures Inv(S()) && vmas == old(vmas) && SameViews(old(S()), S())
      ensures r.Value? || r.Segv? || r.Killed?
      ensures r.Segv? <==> ProtOf(S(), p, v) in {None, Some(ProtNone)}
      ensures r.Killed? <==> old(free) == [] && Absent(old(S()), p, v)
      ensures r.Killed? ==> S() == old(S())
      ensures r.Value? ==> r.b == View(old(S()), p, v)[off]
    {
      if (p, v) !in ptes {
        r := PageNotPresent(p, v);
        if !r.Stored? { return r; }
      }
      assert EntryOk(S(), (p, v));
      assert View(S(), p, v) == View(old(S()), p, v);
      return Value(frames[ptes[(p, v)].frame].data[off]);
    }

    /** The faults a store may take: afterwards the entry is writable, or the store is refused. */
    method MakeWritable(p: nat, v: nat) returns (r: Outcome)
      requires Inv(S()) && p in vmas
      modifies this
      ensures |frames| == old(|frames|)
      ensures Inv(S()) && vmas == old(vmas) && SameViews(old(S()), S())
      ensures r.Stored? || r.Segv? || r.Killed?
      ensures !r.Killed? ==> (r.Segv? <==> ProtOf(S(), p, v) != Some(ReadWrite))
      ensures r.Killed? <==> old(free) == [] && (Absent(old(S()), p, v) || Shared(old(S()), p, v))
      ensures r.Killed? ==> S() == old(S())
      ensures r.Stored? ==> (p, v) in ptes && ptes[(p, v)].rw
    {
      r := Stored;
      if (p, v) !in ptes {
        r := PageNotPresent(p, v);
      }
      if r.Stored? {
        assert EntryOk(S(), (p, v));
        if !ptes[(p, v)].rw {
          r := PageProtectionViolation(p, v);
        }
      }
    }

    /** A store: the faults it may take first, then the byte. */
    method StoreByte(p: nat, v: nat, off: nat, b: Byte) returns (r: Outcome)
      requires Inv(S()) && p in vmas && off < PAGE_SIZE
      modifies this
      ensures |frames| == old(|frames|)
      ensures Inv(S()) && vmas == old(vmas)
      ensures r.Stored? || r.Segv? || r.Killed?
      ensures !r.Killed? ==> (r.Segv? <==> ProtOf(S(), p, v) != Some(ReadWrite))
      ensures r.Killed? <==> old(free) == [] && (Absent(old(S()), p, v) || Shared(old(S()), p, v))
      ensures r.Killed? ==> S() == old(S())
      ensures forall q: nat, u: nat :: View(S(), q, u) ==
                                       if r.Stored? && (q, u) == (p, v) then View(old(S()), q, u)[off := b]
                                       else View(old(S()), q, u)
    {
      r := MakeWritable(p, v);
      if !r.Stored? { return r; }
      ghost var mid := S();
      assert EntryOk(mid, (p, v));
      var f := ptes[(p, v)].frame;
      frames := frames[f := frames[f].(data := frames[f].data[off := b])];
      StoreIsPrivate(mid, (p, v), off, b);
      return Stored;
    }

    /** sys_fork's region copy followed by clone_pages: no page is copied, and yet the
        child's memory starts as the parent's and nobody else's changes. */
    method Fork(p: nat, c: nat)
      requires Inv(S()) && p in vmas && c !in vmas
      modifies this
      ensures |frames| == old(|frames|)
      ensures Inv(S()) && vmas == old(vmas)[c := old(vmas)[p]]
      ensures |free| == old(|free|)
      ensures forall q: nat, u: nat :: View(S(), q, u) == View(old(S()), if q == c then p else q, u)
    {
      hide Inv, View, Cloned, EntriesOk, Sorted;
      ghost var s := S();
      ForkStart(s, p, c);
      vmas := vmas[c := vmas[p]];
      ghost var base := S();
      ClonePages(p, c, base);
      ForkViews(s, base, S(), p, c);
    }

    /** The outer loop of clone_pages. */
    method ClonePages(p: nat, c: nat, ghost base: Kernel)
      requires p != c && p in vmas && c in vmas && vmas[p] == vmas[c] && Inv(S()) && S() == base
      requires (forall u: nat :: (c, u) !in base.ptes) && Cloned(base, base, p, c, 0)
      modifies this
      ensures |frames| == old(|frames|) && vmas == old(vmas) && free == old(free) && Inv(S())
      ensures forall q: nat, u: nat :: View(S(), q, u) == View(base, if q == c then p else q, u)
    {
      hide Inv, View, Cloned, EntriesOk, Sorted;
      var rs := vmas[p];
      InvParts(base, p);
      var i := 0;
      while i < |rs|
        invariant 0 <= i <= |rs|
        invariant vmas == base.vmas && Inv(S()) && free == base.free && |frames| == |base.frames|
        invariant Cloned(base, S(), p, c, Reach(rs, i))
      {
        ClonedUpTo(base, S(), p, c, i);
        CloneRegion(p, c, i, base);
        i := i + 1;
      }
      ClonedAll(base, S(), p, c);
    }

    /** The body of clone_pages's inner loop, for a page the parent has. */
    method CloneOne(p: nat, c: nat, n: nat, prot: Prot)
      requires (p, n) in ptes && ptes[(p, n)].frame < |frames|
      modifies this
      ensures S() == ClonePage(old(S()), p, c, n, prot)
    {
      var f := ptes[(p, n)].frame;
      var pg := frames[f];
      ptes := ptes[(p, n) := Pte(f, false)];
      if prot == ReadWrite {
        pg := pg.(cow := true);
      }
      ptes := ptes[(c, n) := Pte(f, false)];
      pg := pg.(count := pg.count + 1);
      frames := frames[f := pg];
    }

    /** One iteration of that loop: the child now has the parent's pages up to and including `n`. */
    method CloneNext(p: nat, c: nat, n: nat, prot: Prot, ghost base: Kernel)
      requires p != c && ProtOf(S(), p, n) == ProtOf(S(), c, n) == Some(prot)
      requires Inv(S()) && Cloned(base, S(), p, c, n)
      requires forall u: nat :: (c, u) !in base.ptes
      modifies this
      ensures |frames| == old(|frames|) && vmas == old(vmas) && free == old(free)
      ensures Inv(S()) && Cloned(base, S(), p, c, n + 1)
    {
      ghost var mid := S();
      if (p, n) in ptes {
        ClonePageKeeps(mid, p, c, n, prot);
        ghost var e := Pte(ptes[(p, n)].frame, false);
        CloneOne(p, c, n, prot);
        ClonedNext(base, mid, S(), p, c, n, e);
      } else {
        ClonedGap(base, mid, p, c, n, n + 1);
      }
    }

    /** The inner loop of clone_pages, over the pages of one region. */
    method CloneRegion(p: nat, c: nat, i: nat, ghost base: Kernel)
      requires p != c && p in vmas && c in vmas && vmas[p] == vmas[c] && i < |vmas[p]|
      requires Inv(S()) && vmas == base.vmas && Cloned(base, S(), p, c, vmas[p][i].start)
      requires forall u: nat :: (c, u) !in base.ptes
      modifies this
      ensures |frames| == old(|frames|)
      ensures vmas == old(vmas) && free == old(free) && Inv(S())
      ensures Cloned(base, S(), p, c, vmas[p][i].end)
    {
      var r := vmas[p][i];
      var n := r.start;
      while n < r.end
        invariant r.start <= n <= r.end
        invariant vmas == old(vmas) && Inv(S()) && free == old(free) && |frames| == old(|frames|)
        invariant Cloned(base, S(), p, c, n)
      {
        ProtAtIndex(vmas[p], i, n);
        CloneNext(p, c, n, r.prot, base);
        n := n + 1;
      }
    }

    /** A new process, with no memory yet. */
    method Spawn(p: nat)
      requires Inv(S()) && p !in vmas
      modifies this
      ensures |frames| == old(|frames|) && Inv(S()) && vmas == old(vmas)[p := []] && SameViews(old(S()), S())
    {
      NoEntries(S(), p);
      RegionsReplaced(S(), vmas[p := []]);
      vmas := vmas[p := []];
    }

    /** A new private anonymous region, where none was. */
    method MapRegion(p: nat, r: Vma)
      requires Inv(S()) && p in vmas && Fits(vmas[p], r)
      modifies this
      ensures |frames| == old(|frames|)
      ensures Inv(S()) && vmas == old(vmas)[p := InsertRegion(old(vmas)[p], r)]
      ensures SameViews(old(S()), S())
    {
      var rs := InsertRegion(vmas[p], r);
      InsertRegionSorted(vmas[p], r);
      forall k | k in ptes
        ensures ProtOf(S(), k.0, k.1) == ProtOf(S().(vmas := vmas[p := rs]), k.0, k.1)
      {
        assert EntryOk(S(), k);
        if k.0 == p {
          InsertRegionProt(vmas[p], r, k.1);
          ProtAtCovered(vmas[p], k.1);
        }
      }
      RegionsReplaced(S(), vmas[p := rs]);
      vmas := vmas[p := rs];
    }

    /** unmap_page for one page of a region, when it is present. */
    method UnmapOne(p: nat, n: nat)
      requires (p, n) in ptes ==> ptes[(p, n)].frame < |frames|
      modifies this
      ensures S() == if (p, n) in old(ptes) then UnmapPage(old(S()), (p, n)) else old(S())
    {
      if (p, n) !in ptes { return; }
      var f := ptes[(p, n)].frame;
      ptes := ptes - {(p, n)};
      ReleasePage(f);
    }

    /** free_vma_pages: the entries of a range are dropped. */
    method FreePages(p: nat, a: nat, b: nat)
      requires Inv(S()) && a <= b
      modifies this
      ensures |frames| == old(|frames|) && Inv(S()) && vmas == old(vmas) && Unmapped(old(S()), S(), p, a, b)
    {
      var n := a;
      while n < b
        invariant a <= n <= b
        invariant vmas == old(vmas) && Inv(S()) && |frames| == old(|frames|)
        invariant Unmapped(old(S()), S(), p, a, n)
      {
        ghost var mid := S();
        assert (p, n) in ptes ==> EntryOk(mid, (p, n));
        UnmapOne(p, n);
        if (p, n) in mid.ptes { UnmapPageKeeps(mid, (p, n)); }
        UnmapOneMore(old(S()), mid, S(), p, a, n);
        n := n + 1;
      }
    }

    /** A range of a region: its pages read as zeros, what is left of the region stays, in two parts
        if the range lies in its middle. */
    method UnmapRange(p: nat, i: nat, a: nat, b: nat)
      requires Inv(S()) && p in vmas && i < |vmas[p]| && Inside(vmas[p][i], a, b)
      modifies this
      ensures |frames| == old(|frames|)
      ensures Inv(S()) && vmas == old(vmas)[p := Cut(old(vmas)[p], i, a, b)]
      ensures forall q: nat, u: nat :: View(S(), q, u) == if q == p && a <= u < b then ZeroPage() else View(old(S()), q, u)
    {
      FreePages(p, a, b);
      RangeGone(S(), p, i, a, b);
      vmas := vmas[p := Cut(vmas[p], i, a, b)];
    }

    /** The place in the list of the region that holds a page. */
    method FindIndex(p: nat, v: nat) returns (r: Option<nat>)
      requires p in vmas
      ensures r == None ==> ProtOf(S(), p, v) == None
      ensures r.Some? ==> r.value < |vmas[p]| && Contains(vmas[p][r.value], v)
    {
      var rs := vmas[p];
      var i := 0;
      while i < |rs|
        invariant 0 <= i <= |rs| && ProtAt(rs, v) == ProtAt(rs[i..], v)
      {
        if Contains(rs[i], v) { return Some(i); }
        i := i + 1;
      }
      return None;
    }

    /** do_munmap: region by region. It ends exactly when the whole range is mapped; at a page that is
        not it would go round for ever. */
    method Munmap(p: nat, a: nat, b: nat)
      requires Inv(S()) && p in vmas && forall v: nat :: a <= v < b ==> ProtOf(S(), p, v).Some?
      modifies this
      ensures |frames| == old(|frames|) && Inv(S()) && vmas.Keys == old(vmas).Keys && Gone(old(S()), S(), p, a, b)
    {
      hide Inv, View, ProtAt, Cut;
      var n := a;
      GoneNone(S(), p, a);
      while n < b
        invariant a <= n && (n <= b || n == a)
        invariant |frames| == old(|frames|) && Inv(S()) && vmas.Keys == old(vmas).Keys && Gone(old(S()), S(), p, a, n)
        decreases b - n
      {
        ghost var mid := S();
        var i := FindIndex(p, n);
        var end := if vmas[p][i.value].end < b then vmas[p][i.value].end else b;
        UnmapRange(p, i.value, n, end);
        GoneMore(old(S()), mid, S(), p, i.value, a, n, end);
        n := end;
      }
    }

    /** release_binary at exit: the process gives up all it has, and its number with it. */
    method Exit(p: nat)
      requires Inv(S()) && p in vmas
      modifies this
      ensures |frames| == old(|frames|)
      ensures Inv(S()) && vmas == old(vmas) - {p}
      ensures forall q: nat, u: nat :: View(S(), q, u) == if q == p then ZeroPage() else View(old(S()), q, u)
    {
      while vmas[p] != []
        invariant Inv(S()) && |frames| == old(|frames|) && p in vmas && vmas == old(vmas)[p := vmas[p]]
        invariant forall q: nat, u: nat :: q != p ==> View(S(), q, u) == View(old(S()), q, u)
        decreases |vmas[p]|
      {
        var r := vmas[p][0];
        assert Cut(vmas[p], 0, r.start, r.end) == vmas[p][1..];
        UnmapRange(p, 0, r.start, r.end);
      }
      NoRegions(S(), p);
      vmas := vmas - {p};
    }
  }

  // ---------------------------------------------------------------- the machine that copies at fork

  /** Memory without regions and frames: the processes there are, for every page of theirs how it may be
      touched, and what it holds; a page that has no contents holds zeros. */
  datatype Eager = Eager(alive: set<nat>, prot: map<(nat, nat), Prot>, data: map<(nat, nat), Page>)

  datatype Op =
    | Spawn(p: nat)
    | Map(p: nat, r: Vma)
    | Unmap(p: nat, from: nat, to: nat)
    | Exit(p: nat)
    | Clone(p: nat, c: nat)
    | Read(p: nat, v: nat, off: nat)
    | Write(p: nat, v: nat, off: nat, b: Byte)

  function Pages(p: nat, a: nat, b: nat): (r: set<(nat, nat)>)
    ensures forall k :: k in r <==> k.0 == p && a <= k.1 < b
  {
    set v: nat | a <= v < b :: (p, v)
  }

  function EagerProt(e: Eager, p: nat, v: nat): Option<Prot> {
    if (p, v) in e.prot then Some(e.prot[(p, v)]) else None
  }

  function Look(e: Eager, p: nat, v: nat): Page {
    if (p, v) in e.data then e.data[(p, v)] else ZeroPage()
  }

  /** Whether `op` can be done at all: the process is there, what is mapped was not, what is unmapped was,
      and so on. */
  predicate Sensible(e: Eager, op: Op) {
    match op
    case Spawn(p) => p !in e.alive
    case Map(p, r) => p in e.alive && r.start < r.end && Pages(p, r.start, r.end) !! e.prot.Keys
    case Unmap(p, a, b) => p in e.alive && Pages(p, a, b) <= e.prot.Keys
    case Exit(p) => p in e.alive
    case Clone(p, c) => p in e.alive && c !in e.alive
    case Read(p, _, off) => p in e.alive && off < PAGE_SIZE
    case Write(p, _, off, _) => p in e.alive && off < PAGE_SIZE
  }

  /** Everything that process `p` has, for `c`. */
  function Copies<T>(m: map<(nat, nat), T>, p: nat, c: nat): (r: map<(nat, nat), T>)
    ensures forall k :: k in r <==> k.0 == c && (p, k.1) in m
    ensures forall k :: k in r ==> r[k] == m[(p, k.1)]
  {
    var keys := set k | k in m && k.0 == p :: (c, k.1);
    map k | k in keys && (p, k.1) in m :: m[(p, k.1)]
  }

  function Others<T>(m: map<(nat, nat), T>, p: nat): map<(nat, nat), T> {
    map k | k in m && k.0 != p :: m[k]
  }

  function EagerStep(e: Eager, op: Op): (Eager, Outcome)
    requires Sensible(e, op)
  {
    match op
    case Spawn(p) => (e.(alive := e.alive + {p}), Stored)
    case Map(p, r) => (e.(prot := e.prot + map k | k in Pages(p, r.start, r.end) :: r.prot), Stored)
    case Unmap(p, a, b) => (e.(prot := e.prot - Pages(p, a, b), data := e.data - Pages(p, a, b)), Stored)
    case Exit(p) => (Eager(e.alive - {p}, Others(e.prot, p), Others(e.data, p)), Stored)
    case Clone(p, c) => (Eager(e.alive + {c}, e.prot + Copies(e.prot, p, c), e.data + Copies(e.data, p, c)), Stored)
    case Read(p, v, off) =>
      (e, if EagerProt(e, p, v) in {None, Some(ProtNone)} then Segv else Value(Look(e, p, v)[off]))
    case Write(p, v, off, b) =>
      if EagerProt(e, p, v) != Some(ReadWrite) then (e, Segv)
      else (e.(data := e.data[(p, v) := Look(e, p, v)[off := b]]), Stored)
  }

  /** The eager machine after a list of operations; those that cannot be done are skipped. */
  function EagerAfter(ops: seq<Op>): Eager {
    if ops == [] then Eager({}, map[], map[])
    else
      var e := EagerAfter(ops[..|ops| - 1]);
      if Sensible(e, ops[|ops| - 1]) then EagerStep(e, ops[|ops| - 1]).0 else e
  }

  /** Everything the processes observe in a run of the eager machine. */
  function EagerSeen(ops: seq<Op>): (seen: seq<Outcome>)
  {
    if ops == [] then []
    else
      var e := EagerAfter(ops[..|ops| - 1]);
      EagerSeen(ops[..|ops| - 1]) +
      (if Sensible(e, ops[|ops| - 1]) then [EagerStep(e, ops[|ops| - 1]).1] else [])
  }

  // ---------------------------------------------------------------- what a process may rely on

  /** The process was made, and has not ended since. */
  ghost predicate Lives(ops: seq<Op>, p: nat) {
    ops != [] &&
    var before, op := ops[..|ops| - 1], ops[|ops| - 1];
    if op == Spawn(p) then true
    else if op == Exit(p) then false
    else Lives(before, p) || (op.Clone? && op.c == p && Lives(before, op.p))
  }

  /** The last fork made `p`. */
  ghost predicate Forked(ops: seq<Op>, p: nat)
    requires ops != []
  {
    var before, op := ops[..|ops| - 1], ops[|ops| - 1];
    op.Clone? && op.c == p && !Lives(before, p) && Lives(before, op.p)
  }

  /** How a page may be touched, as last said: by a mapping of pages that were not mapped, by an unmapping
      of pages that were, by the end of the process, or by the process it was forked from. */
  ghost function Allowed(ops: seq<Op>, p: nat, v: nat): Option<Prot> {
    if ops == [] then None
    else
      var before, op := ops[..|ops| - 1], ops[|ops| - 1];
      if Forked(ops, p) then Allowed(before, op.p, v)
      else if op == Exit(p) then None
      else if op.Map? && op.p == p && Lives(before, p) && op.r.start <= v < op.r.end
              && forall u: nat :: op.r.start <= u < op.r.end ==> Allowed(before, p, u) == None
      then Some(op.r.prot)
      else if op.Unmap? && op.p == p && Lives(before, p) && op.from <= v < op.to
              && forall u: nat :: op.from <= u < op.to ==> Allowed(before, p, u).Some?
      then None
      else Allowed(before, p, v)
  }

  /** The byte last stored there, by the process or by the one it was forked from, since the page was
      mapped; zero if there was none. */
  ghost function LastByte(ops: seq<Op>, p: nat, v: nat, off: nat): Byte {
    if ops == [] then 0
    else
      var before, op := ops[..|ops| - 1], ops[|ops| - 1];
      if Forked(ops, p) then LastByte(before, op.p, v, off)
      else if Allowed(ops, p, v) == None then 0
      else if op.Write? && op.p == p && op.v == v && op.off == off && Allowed(ops, p, v) == Some(ReadWrite) then op.b
      else LastByte(before, p, v, off)
  }

  lemma {:induction false} LivesIs(ops: seq<Op>, p: nat)
    ensures Lives(ops, p) <==> p in EagerAfter(ops).alive
  {
    if ops != [] {
      var before, op := ops[..|ops| - 1], ops[|ops| - 1];
      LivesIs(before, p);
      if op.Clone? { LivesIs(before, op.p); }
      hide Copies, Others, Pages;
    }
  }

  ghost predicate Tidy(e: Eager) {
    (forall k :: k in e.prot ==> k.0 in e.alive) && (forall k :: k in e.data ==> k in e.prot)
  }

  lemma {:induction false} StaysTidy(ops: seq<Op>)
    ensures Tidy(EagerAfter(ops))
  {
    if ops != [] {
      var before, op := ops[..|ops| - 1], ops[|ops| - 1];
      StaysTidy(before);
      if Sensible(EagerAfter(before), op) { TidyStep(EagerAfter(before), op); }
    }
  }

  lemma TidyStep(e: Eager, op: Op)
    requires Tidy(e) && Sensible(e, op)
    ensures Tidy(EagerStep(e, op).0)
  {
  }

  lemma {:induction false} AllowedIs(ops: seq<Op>, p: nat, v: nat)
    ensures Allowed(ops, p, v) == EagerProt(EagerAfter(ops), p, v)
  {
    if ops != [] {
      var before, op := ops[..|ops| - 1], ops[|ops| - 1];
      var e := EagerAfter(before);
      LivesIs(before, p);
      StaysTidy(before);
      if op.Clone? {
        LivesIs(before, op.p);
        AllowedIs(before, op.p, v);
      }
      forall u: nat ensures Allowed(before, p, u) == EagerProt(e, p, u) { AllowedIs(before, p, u); }
      AllowedStep(ops, p, v);
    }
  }

  lemma AllowedStep(ops: seq<Op>, p: nat, v: nat)
    requires ops != []
    requires var before, op, e := ops[..|ops| - 1], ops[|ops| - 1], EagerAfter(ops[..|ops| - 1]);
      && Tidy(e) && (Lives(before, p) <==> p in e.alive)
      && (op.Clone? ==> (Lives(before, op.p) <==> op.p in e.alive) && Allowed(before, op.p, v) == EagerProt(e, op.p, v))
      && forall u: nat :: Allowed(before, p, u) == EagerProt(e, p, u)
    ensures Allowed(ops, p, v) == EagerProt(EagerAfter(ops), p, v)
  {
    var before, op, e := ops[..|ops| - 1], ops[|ops| - 1], EagerAfter(ops[..|ops| - 1]);
    hide Lives;
    match op {
      case Map(q, r) =>
        NonePresent(e, q, r.start, r.end);
      case Unmap(q, a, b) =>
        AllPresent(e, q, a, b);
      case _ =>
    }
  }

  lemma NonePresent(e: Eager, p: nat, a: nat, b: nat)
    ensures Pages(p, a, b) !! e.prot.Keys <==> forall u: nat :: a <= u < b ==> EagerProt(e, p, u) == None
  {
    if Pages(p, a, b) !! e.prot.Keys {
      forall u: nat | a <= u < b ensures EagerProt(e, p, u) == None { assert (p, u) in Pages(p, a, b); }
    }
    if forall u: nat :: a <= u < b ==> EagerProt(e, p, u) == None {
      forall k | k in Pages(p, a, b) ensures k !in e.prot.Keys { assert k == (p, k.1) && EagerProt(e, p, k.1) == None; }
    }
  }

  lemma AllPresent(e: Eager, p: nat, a: nat, b: nat)
    ensures Pages(p, a, b) <= e.prot.Keys <==> forall u: nat :: a <= u < b ==> EagerProt(e, p, u).Some?
  {
    if Pages(p, a, b) <= e.prot.Keys {
      forall u: nat | a <= u < b ensures EagerProt(e, p, u).Some? { assert (p, u) in Pages(p, a, b); }
    }
    if forall u: nat :: a <= u < b ==> EagerProt(e, p, u).Some? {
      forall k | k in Pages(p, a, b) ensures k in e.prot.Keys { assert k == (p, k.1) && EagerProt(e, p, k.1).Some?; }
    }
  }

  lemma {:induction false} LastByteIs(ops: seq<Op>, p: nat, v: nat, off: nat)
    requires off < PAGE_SIZE
    ensures LastByte(ops, p, v, off) == Look(EagerAfter(ops), p, v)[off]
  {
    if ops != [] {
      var before, op := ops[..|ops| - 1], ops[|ops| - 1];
      LivesIs(before, p);
      AllowedIs(ops, p, v);
      AllowedIs(before, p, v);
      StaysTidy(ops);
      StaysTidy(before);
      LastByteIs(before, p, v, off);
      if op.Clone? {
        LivesIs(before, op.p);
        LastByteIs(before, op.p, v, off);
      }
      hide Lives, Allowed;
      LastByteStep(EagerAfter(before), op, p, v, off);
    }
  }

  lemma LastByteStep(e: Eager, op: Op, p: nat, v: nat, off: nat)
    requires Tidy(e) && off < PAGE_SIZE
    ensures var t := if Sensible(e, op) then EagerStep(e, op).0 else e;
      Look(t, p, v)[off] ==
        if op.Clone? && op.c == p && p !in e.alive && op.p in e.alive then Look(e, op.p, v)[off]
        else if EagerProt(t, p, v) == None then 0
        else if op.Write? && op.p == p && op.v == v && op.off == off && EagerProt(t, p, v) == Some(ReadWrite) then op.b
        else Look(e, p, v)[off]
  {
    TidyZero(e, p, v);
    if Sensible(e, op) {
      TidyStep(e, op);
      TidyZero(EagerStep(e, op).0, p, v);
    }
  }

  lemma TidyZero(e: Eager, p: nat, v: nat)
    requires Tidy(e)
    ensures EagerProt(e, p, v) == None ==> Look(e, p, v) == ZeroPage() && (p, v) !in e.data
    ensures EagerProt(e, p, v).Some? ==> p in e.alive
  {
  }

  /** What a load shows: the byte last stored there, or a fault where nothing may be read. */
  lemma ReadShows(ops: seq<Op>, p: nat, v: nat, off: nat)
    requires Lives(ops, p) && off < PAGE_SIZE
    ensures EagerSeen(ops + [Read(p, v, off)]) == EagerSeen(ops) +
      [if Allowed(ops, p, v) in {None, Some(ProtNone)} then Segv else Value(LastByte(ops, p, v, off))]
  {
    assert (ops + [Read(p, v, off)])[..|ops|] == ops;
    LivesIs(ops, p);
    AllowedIs(ops, p, v);
    LastByteIs(ops, p, v, off);
    hide Lives, Allowed, LastByte, EagerAfter;
  }

  // ---------------------------------------------------------------- the two machines agree

  ghost predicate Agree(s: Kernel, e: Eager) {
    && s.vmas.Keys == e.alive && Tidy(e)
    && (forall p: nat, v: nat :: View(s, p, v) == Look(e, p, v))
    && (forall p: nat, v: nat :: ProtOf(s, p, v) == EagerProt(e, p, v))
  }

  /** What the kernel goes by: the region lists. */
  predicate Ready(s: Kernel, op: Op) {
    match op
    case Spawn(p) => p !in s.vmas
    case Map(p, r) => p in s.vmas && Fits(s.vmas[p], r)
    case Unmap(p, a, b) => p in s.vmas && forall v: nat :: a <= v < b ==> ProtOf(s, p, v).Some?
    case Exit(p) => p in s.vmas
    case Clone(p, c) => p in s.vmas && c !in s.vmas
    case Read(p, _, off) => p in s.vmas && off < PAGE_SIZE
    case Write(p, _, off, _) => p in s.vmas && off < PAGE_SIZE
  }

  lemma ReadyIff(s: Kernel, e: Eager, op: Op)
    requires Inv(s) && Agree(s, e)
    ensures Ready(s, op) <==> Sensible(e, op)
  {
    hide View, Look, CountsExact, FreeExact, EntriesOk;
    match op {
      case Map(p, r) =>
        if p in s.vmas && r.start < r.end { MapReady(s, e, p, r); }
      case Unmap(p, a, b) =>
        if p in s.vmas { UnmapReady(s, e, p, a, b); }
      case _ =>
    }
  }

  lemma MapReady(s: Kernel, e: Eager, p: nat, r: Vma)
    requires p in s.vmas && Sorted(s.vmas[p]) && r.start < r.end && forall v: nat :: ProtOf(s, p, v) == EagerProt(e, p, v)
    ensures Fits(s.vmas[p], r) <==> Pages(p, r.start, r.end) !! e.prot.Keys
  {
    hide Fits, EagerProt, Pages;
    FitsIff(s.vmas[p], r);
    NonePresent(e, p, r.start, r.end);
    forall v: nat ensures ProtAt(s.vmas[p], v) == EagerProt(e, p, v) { assert ProtOf(s, p, v) == EagerProt(e, p, v); }
    if Fits(s.vmas[p], r) {
      forall v: nat | r.start <= v < r.end ensures EagerProt(e, p, v) == None { assert ProtAt(s.vmas[p], v) == None; }
    }
    if Pages(p, r.start, r.end) !! e.prot.Keys {
      forall v: nat | r.start <= v < r.end ensures ProtAt(s.vmas[p], v) == None { assert EagerProt(e, p, v) == None; }
    }
  }

  lemma UnmapReady(s: Kernel, e: Eager, p: nat, a: nat, b: nat)
    requires p in s.vmas && forall v: nat :: ProtOf(s, p, v) == EagerProt(e, p, v)
    ensures (forall v: nat :: a <= v < b ==> ProtOf(s, p, v).Some?) <==> Pages(p, a, b) <= e.prot.Keys
  {
    hide ProtOf, EagerProt, Pages;
    AllPresent(e, p, a, b);
  }

  /** A region fits in where none of its pages is in another. */
  lemma FitsIff(rs: seq<Vma>, r: Vma)
    requires Sorted(rs) && r.start < r.end
    ensures Fits(rs, r) <==> forall v: nat :: r.start <= v < r.end ==> ProtAt(rs, v) == None
  {
    hide Fits, ProtAt;
    if forall v: nat :: r.start <= v < r.end ==> ProtAt(rs, v) == None {
      NoneInTheWay(rs, r);
    } else {
      var v: nat :| r.start <= v < r.end && ProtAt(rs, v) != None;
      InTheWay(rs, r, v);
    }
  }

  lemma InTheWay(rs: seq<Vma>, r: Vma, v: nat)
    requires Contains(r, v) && ProtAt(rs, v) != None
    ensures !Fits(rs, r)
  {
    ProtAtCovered(rs, v);
    var i :| 0 <= i < |rs| && Contains(rs[i], v);
    assert !(rs[i].end <= r.start || r.end <= rs[i].start);
  }

  lemma NoneInTheWay(rs: seq<Vma>, r: Vma)
    requires Sorted(rs) && r.start < r.end && forall v: nat :: r.start <= v < r.end ==> ProtAt(rs, v) == None
    ensures Fits(rs, r)
  {
    hide ProtAt;
    forall i | 0 <= i < |rs| ensures rs[i].end <= r.start || r.end <= rs[i].start {
      var v := if rs[i].start < r.start then r.start else rs[i].start;
      ProtAtCovered(rs, v);
      assert Contains(rs[i], v) ==> Covered(rs, v);
    }
  }

  lemma MapAgrees(s: Kernel, t: Kernel, e: Eager, p: nat, r: Vma)
    requires Inv(s) && Agree(s, e) && Sensible(e, Map(p, r)) && Fits(s.vmas[p], r) && SameViews(s, t)
    requires t.vmas == s.vmas[p := InsertRegion(s.vmas[p], r)]
    ensures Agree(t, EagerStep(e, Map(p, r)).0)
  {
    hide View, Look, Fits;
    TidyStep(e, Map(p, r));
    forall v: nat ensures ProtAt(t.vmas[p], v) == if Contains(r, v) then Some(r.prot) else ProtAt(s.vmas[p], v) {
      InsertRegionProt(s.vmas[p], r, v);
    }
    hide ProtAt, InsertRegion, Tidy;
    var f := EagerStep(e, Map(p, r)).0;
    SameLook(s, t, e, f);
    forall q: nat, u: nat ensures ProtOf(t, q, u) == EagerProt(f, q, u) { assert ProtOf(s, q, u) == EagerProt(e, q, u); }
  }

  lemma SameLook(s: Kernel, t: Kernel, e: Eager, f: Eager)
    requires (forall p: nat, v: nat :: View(s, p, v) == Look(e, p, v)) && SameViews(s, t) && f.data == e.data
    ensures forall p: nat, v: nat :: View(t, p, v) == Look(f, p, v)
  {
    forall p: nat, v: nat ensures View(t, p, v) == Look(f, p, v) { assert View(s, p, v) == Look(e, p, v); }
  }

  lemma UnmapAgrees(s: Kernel, t: Kernel, e: Eager, p: nat, a: nat, b: nat)
    requires Agree(s, e) && Sensible(e, Unmap(p, a, b)) && t.vmas.Keys == s.vmas.Keys && Gone(s, t, p, a, b)
    ensures Agree(t, EagerStep(e, Unmap(p, a, b)).0)
  {
    hide View, ProtOf;
    var e' := EagerStep(e, Unmap(p, a, b)).0;
    TidyStep(e, Unmap(p, a, b));
    forall q: nat, u: nat ensures View(t, q, u) == Look(e', q, u) && ProtOf(t, q, u) == EagerProt(e', q, u) {
      assert View(s, q, u) == Look(e, q, u) && ProtOf(s, q, u) == EagerProt(e, q, u);
    }
  }

  lemma ExitAgrees(s: Kernel, t: Kernel, e: Eager, p: nat)
    requires Agree(s, e) && Sensible(e, Exit(p)) && t.vmas == s.vmas - {p}
    requires forall q: nat, u: nat :: View(t, q, u) == if q == p then ZeroPage() else View(s, q, u)
    ensures Agree(t, EagerStep(e, Exit(p)).0)
  {
    hide View, ProtAt;
    var e' := EagerStep(e, Exit(p)).0;
    TidyStep(e, Exit(p));
    forall q: nat, u: nat ensures View(t, q, u) == Look(e', q, u) && ProtOf(t, q, u) == EagerProt(e', q, u) {
      assert View(s, q, u) == Look(e, q, u) && ProtOf(s, q, u) == EagerProt(e, q, u);
    }
  }

  lemma CloneAgrees(s: Kernel, t: Kernel, e: Eager, p: nat, c: nat)
    requires Agree(s, e) && Sensible(e, Clone(p, c))
    requires t.vmas == s.vmas[c := s.vmas[p]]
    requires forall q: nat, u: nat :: View(t, q, u) == View(s, if q == c then p else q, u)
    ensures Agree(t, EagerStep(e, Clone(p, c)).0)
  {
    hide View, ProtAt, Tidy, Copies;
    var e' := EagerStep(e, Clone(p, c)).0;
    TidyStep(e, Clone(p, c));
    forall q: nat, u: nat ensures View(t, q, u) == Look(e', q, u) && ProtOf(t, q, u) == EagerProt(e', q, u) {
      CloneLook(e, p, c, q, u);
      assert View(s, p, u) == Look(e, p, u) && ProtOf(s, p, u) == EagerProt(e, p, u);
      assert View(s, q, u) == Look(e, q, u) && ProtOf(s, q, u) == EagerProt(e, q, u);
    }
  }

  lemma CloneLook(e: Eager, p: nat, c: nat, q: nat, u: nat)
    requires Tidy(e) && Sensible(e, Clone(p, c))
    ensures var e' := EagerStep(e, Clone(p, c)).0; var from := if q == c then p else q;
      Look(e', q, u) == Look(e, from, u) && EagerProt(e', q, u) == EagerProt(e, from, u)
  {
    hide Copies;
  }

  lemma WriteAgrees(s: Kernel, t: Kernel, e: Eager, p: nat, v: nat, off: nat, b: Byte)
    requires Agree(s, e) && Sensible(e, Write(p, v, off, b)) && EagerProt(e, p, v) == Some(ReadWrite)
    requires t.vmas == s.vmas
    requires forall q: nat, u: nat :: View(t, q, u) ==
                                      if (q, u) == (p, v) then View(s, q, u)[off := b] else View(s, q, u)
    ensures Agree(t, EagerStep(e, Write(p, v, off, b)).0)
  {
    hide View, ProtAt;
    var e' := EagerStep(e, Write(p, v, off, b)).0;
    forall q: nat, u: nat ensures View(t, q, u) == Look(e', q, u) && ProtOf(t, q, u) == EagerProt(e', q, u) {
      assert View(s, q, u) == Look(e, q, u) && ProtOf(s, q, u) == EagerProt(e, q, u);
    }
  }

  /** Nothing that the machines agree about has changed. */
  lemma StillAgrees(s: Kernel, t: Kernel, e: Eager)
    requires Agree(s, e) && t.vmas == s.vmas && SameViews(s, t)
    ensures Agree(t, e)
  {
    hide View, ProtAt, Look;
    SameLook(s, t, e, e);
  }

  lemma SpawnAgrees(s: Kernel, t: Kernel, e: Eager, p: nat)
    requires Agree(s, e) && Sensible(e, Spawn(p)) && t.vmas == s.vmas[p := []] && SameViews(s, t)
    ensures Agree(t, EagerStep(e, Spawn(p)).0)
  {
    hide View, Look;
    SameLook(s, t, e, EagerStep(e, Spawn(p)).0);
    forall q: nat, u: nat ensures ProtOf(t, q, u) == EagerProt(e, q, u) { assert ProtOf(s, q, u) == EagerProt(e, q, u); }
  }

  /** The operation cannot be done without a frame more. */
  predicate NeedsFrame(s: Kernel, op: Op) {
    match op
    case Read(p, v, _) => Absent(s, p, v)
    case Write(p, v, _, _) => Absent(s, p, v) || Shared(s, p, v)
    case _ => false
  }

  /** One operation of the copy-on-write kernel matches the same operation of the eager machine, unless
      it needs a frame and there is none. */
  method Perform(m: Memory, op: Op, ghost e: Eager) returns (r: Outcome)
    requires Inv(m.S()) && Agree(m.S(), e) && Sensible(e, op)
    modifies m
    ensures Inv(m.S()) && |m.frames| == old(|m.frames|)
    ensures r.Killed? <==> old(m.free) == [] && NeedsFrame(old(m.S()), op)
    ensures r.Killed? ==> m.S() == old(m.S())
    ensures !r.Killed? ==> r == EagerStep(e, op).1 && Agree(m.S(), EagerStep(e, op).0)
  {
    hide Inv, View, Fits, InsertRegion, Gone, Tidy, ProtAt;
    r := Stored;
    ghost var s := m.S();
    ReadyIff(s, e, op);
    match op {
      case Spawn(p) =>
        m.Spawn(p);
        SpawnAgrees(s, m.S(), e, p);
      case Map(p, reg) =>
        m.MapRegion(p, reg);
        MapAgrees(s, m.S(), e, p, reg);
      case Unmap(p, a, b) =>
        m.Munmap(p, a, b);
        UnmapAgrees(s, m.S(), e, p, a, b);
      case Exit(p) =>
        m.Exit(p);
        ExitAgrees(s, m.S(), e, p);
      case Clone(p, c) =>
        m.Fork(p, c);
        CloneAgrees(s, m.S(), e, p, c);
      case Read(p, v, off) =>
        assert ProtOf(s, p, v) == EagerProt(e, p, v) && View(s, p, v) == Look(e, p, v);
        r := m.Load(p, v, off);
        StillAgrees(s, m.S(), e);
      case Write(p, v, off, b) =>
        assert ProtOf(s, p, v) == EagerProt(e, p, v);
        r := m.StoreByte(p, v, off, b);
        if r.Stored? { WriteAgrees(s, m.S(), e, p, v, off, b); } else { StillAgrees(s, m.S(), e); }
    }
  }

  /** In every run, on any number of frames, what processes observe under copy-on-write is
      what they would observe had every fork copied every page, until an access needs a frame and
      there is none. */
  method Run(n: nat, ops: seq<Op>) returns (seen: seq<Outcome>, done: nat, s: Kernel)
    ensures done <= |ops| && seen == EagerSeen(ops[..done])
    ensures Inv(s) && Agree(s, EagerAfter(ops[..done])) && |s.frames| == n
    ensures done < |ops| ==> s.free == [] && Sensible(EagerAfter(ops[..done]), ops[done]) && NeedsFrame(s, ops[done])
  {
    hide Inv, View, Tidy, ProtAt, Fits;
    var m := new Memory(n);
    seen, done := [], 0;
    NothingYet(m.S());
    while done < |ops|
      invariant done <= |ops| && seen == EagerSeen(ops[..done])
      invariant Inv(m.S()) && Agree(m.S(), EagerAfter(ops[..done])) && |m.frames| == n
    {
      assert ops[..done + 1][..done] == ops[..done];
      ReadyIff(m.S(), EagerAfter(ops[..done]), ops[done]);
      if Ready(m.S(), ops[done]) {
        var r := Perform(m, ops[done], EagerAfter(ops[..done]));
        if r.Killed? { break; }
        seen := seen + [r];
      }
      done := done + 1;
    }
    s := m.S();
  }

  lemma NothingYet(s: Kernel)
    requires s.vmas == map[] && s.ptes == map[]
    ensures Agree(s, Eager({}, map[], map[]))
  {
  }
}
