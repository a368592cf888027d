/**
 Doubly linked lists threaded through the objects they hold, as the kernel keeps them: `next` and
 `prev` are fields of the objects, and a list is its head.
 */
module Links {
  import opened Lists
  import opened Wrappers

  type Link = Option<nat>

  function First(l: seq<nat>): Link {
    if l == [] then None else Some(l[0])
  }

  function Last(l: seq<nat>): Link {
    if l == [] then None else Some(l[|l| - 1])
  }

  function NextIn(l: seq<nat>, i: nat): Link
    requires i < |l|
  {
    if i + 1 < |l| then Some(l[i + 1]) else None
  }

  function PrevIn(l: seq<nat>, i: nat): Link
    requires i < |l|
  {
    if i > 0 then Some(l[i - 1]) else None
  }

  ghost predicate Distinct(l: seq<nat>) {
    forall i, j :: 0 <= i < j < |l| ==> l[i] != l[j]
  }

  // ---------------------------------------------------------------- chains, ended by null both ways

  ghost predicate LinkedAt(next: map<nat, Link>, prev: map<nat, Link>, l: seq<nat>, i: nat)
    requires i < |l|
  {
    l[i] in next && l[i] in prev && next[l[i]] == NextIn(l, i) && prev[l[i]] == PrevIn(l, i)
  }

  ghost predicate Linked(next: map<nat, Link>, prev: map<nat, Link>, l: seq<nat>) {
    forall i :: 0 <= i < |l| ==> LinkedAt(next, prev, l, i)
  }

  ghost predicate Chain(head: Link, next: map<nat, Link>, prev: map<nat, Link>, l: seq<nat>) {
    Distinct(l) && head == First(l) && Linked(next, prev, l)
  }

  /** The list without the member at place `i`. */
  function Cut(l: seq<nat>, i: nat): seq<nat>
    requires i < |l|
  {
    l[..i] + l[i + 1..]
  }

  /** Insertion at the head. */
  lemma PushChain(head: Link, next: map<nat, Link>, prev: map<nat, Link>, l: seq<nat>, x: nat)
    requires Chain(head, next, prev, l) && x !in l
    ensures var next', prev' := next[x := head], prev[x := None];
      Chain(Some(x), next', if head.Some? then prev'[head.value := Some(x)] else prev', [x] + l)
  {
    var next', prev0 := next[x := head], prev[x := None];
    var prev' := if head.Some? then prev0[head.value := Some(x)] else prev0;
    var k := [x] + l;
    forall i | 0 <= i < |k| ensures LinkedAt(next', prev', k, i) {
      if i > 0 { assert LinkedAt(next, prev, l, i - 1); }
    }
  }

  /** What unlinking `x` does to the `prev` and `next` of its neighbours. */
  function NextWithout(next: map<nat, Link>, prev: map<nat, Link>, x: nat): map<nat, Link>
    requires x in next && x in prev
  {
    if prev[x].Some? then next[prev[x].value := next[x]] else next
  }

  function PrevWithout(next: map<nat, Link>, prev: map<nat, Link>, x: nat): map<nat, Link>
    requires x in next && x in prev
  {
    if next[x].Some? then prev[next[x].value := prev[x]] else prev
  }

  lemma UnlinkChain(head: Link, next: map<nat, Link>, prev: map<nat, Link>, l: seq<nat>, i: nat)
    requires Chain(head, next, prev, l) && i < |l|
    ensures var x := l[i];
      && x in next && x in prev && (head == Some(x) <==> i == 0)
      && Chain(if head == Some(x) then next[x] else head, NextWithout(next, prev, x), PrevWithout(next, prev, x), Cut(l, i))
  {
    assert LinkedAt(next, prev, l, i);
    var x, k := l[i], Cut(l, i);
    var next', prev' := NextWithout(next, prev, x), PrevWithout(next, prev, x);
    forall j | 0 <= j < |k| ensures LinkedAt(next', prev', k, j) {
      UnlinkAt(head, next, prev, l, i, j);
    }
  }

  lemma UnlinkAt(head: Link, next: map<nat, Link>, prev: map<nat, Link>, l: seq<nat>, i: nat, j: nat)
    requires Chain(head, next, prev, l) && i < |l| && j < |l| - 1
    ensures l[i] in next && l[i] in prev
    ensures LinkedAt(NextWithout(next, prev, l[i]), PrevWithout(next, prev, l[i]), Cut(l, i), j)
  {
    var m := if j < i then j else j + 1;
    assert LinkedAt(next, prev, l, i) && LinkedAt(next, prev, l, m);
    assert Cut(l, i)[j] == l[m];
  }

  /** A list none of whose members is touched stays as it is. */
  lemma Untouched(head: Link, next: map<nat, Link>, prev: map<nat, Link>, next': map<nat, Link>,
                  prev': map<nat, Link>, l: seq<nat>)
    requires Chain(head, next, prev, l)
    requires forall x :: x in l ==> x in next' && x in prev' && (x in next ==> next'[x] == next[x]) && (x in prev ==> prev'[x] == prev[x])
    ensures Chain(head, next', prev', l)
  {
    forall i | 0 <= i < |l| ensures LinkedAt(next', prev', l, i) { assert LinkedAt(next, prev, l, i); }
  }

  // ---------------------------------------------------------------- lists whose head points back to the tail

  ghost predicate RingAt(next: map<nat, Link>, prev: map<nat, Link>, l: seq<nat>, i: nat)
    requires i < |l|
  {
    l[i] in next && l[i] in prev && next[l[i]] == NextIn(l, i) && prev[l[i]] == if i > 0 then PrevIn(l, i) else Last(l)
  }

  ghost predicate Ring(next: map<nat, Link>, prev: map<nat, Link>, l: seq<nat>) {
    forall i :: 0 <= i < |l| ==> RingAt(next, prev, l, i)
  }

  /** The lists of buffer.c: the head's back link shows the tail. */
  ghost predicate Tailed(head: Link, next: map<nat, Link>, prev: map<nat, Link>, l: seq<nat>) {
    Distinct(l) && head == First(l) && Ring(next, prev, l)
  }

  lemma Ends(head: Link, next: map<nat, Link>, prev: map<nat, Link>, l: seq<nat>)
    requires Tailed(head, next, prev, l) && l != []
    ensures head == Some(l[0]) && l[0] in prev && prev[l[0]] == Some(l[|l| - 1]) && l[|l| - 1] in next
  {
    assert RingAt(next, prev, l, 0) && RingAt(next, prev, l, |l| - 1);
  }

  lemma AloneOk(next: map<nat, Link>, prev: map<nat, Link>, x: nat)
    requires x in next && next[x] == None
    ensures Tailed(Some(x), next, prev[x := Some(x)], [x])
  {
    assert RingAt(next, prev[x := Some(x)], [x], 0);
  }

  lemma FrontOk(head: Link, next: map<nat, Link>, prev: map<nat, Link>, l: seq<nat>, x: nat)
    requires Tailed(head, next, prev, l) && l != [] && x !in l
    ensures Tailed(Some(x), next[x := head], prev[x := Last(l)][l[0] := Some(x)], [x] + l)
  {
    var next', prev', k := next[x := head], prev[x := Last(l)][l[0] := Some(x)], [x] + l;
    assert RingAt(next, prev, l, 0);
    forall i | 0 <= i < |k| ensures RingAt(next', prev', k, i) {
      if i > 0 { assert RingAt(next, prev, l, i - 1) && k[i] == l[i - 1]; }
    }
  }

  lemma BackOk(head: Link, next: map<nat, Link>, prev: map<nat, Link>, l: seq<nat>, x: nat)
    requires Tailed(head, next, prev, l) && l != [] && x !in l && x in next && next[x] == None
    ensures var tail := l[|l| - 1];
      Tailed(head, next[tail := Some(x)], prev[x := Some(tail)][l[0] := Some(x)], l + [x])
  {
    var n := |l|;
    var next', prev', k := next[l[n - 1] := Some(x)], prev[x := Some(l[n - 1])][l[0] := Some(x)], l + [x];
    assert RingAt(next, prev, l, 0) && RingAt(next, prev, l, n - 1);
    forall i | 0 <= i < |k| ensures RingAt(next', prev', k, i) {
      if i < n { assert RingAt(next, prev, l, i) && k[i] == l[i]; }
    }
  }

  /** The links after `x` has been taken out, as remove_from_free_list leaves them. */
  function NextRemoved(head: Link, next: map<nat, Link>, prev: map<nat, Link>, x: nat): map<nat, Link>
    requires x in next && x in prev
  {
    var n := if prev[x].Some? && Some(x) != head then next[prev[x].value := next[x]] else next;
    n[x := None]
  }

  function PrevRemoved(head: Link, next: map<nat, Link>, prev: map<nat, Link>, x: nat): map<nat, Link>
    requires x in next && x in prev
  {
    var p := if next[x].Some? then prev[next[x].value := prev[x]] else if head.Some? then prev[head.value := prev[x]] else prev;
    p[x := None]
  }

  lemma RemoveOk(head: Link, next: map<nat, Link>, prev: map<nat, Link>, l: seq<nat>, i: nat)
    requires Tailed(head, next, prev, l) && i < |l|
    ensures var x := l[i];
      && x in next && x in prev && next[x] != Some(x) && (head != Some(x) ==> prev[x] != Some(x))
      && Tailed(if head == Some(x) then next[x] else head, NextRemoved(head, next, prev, x), PrevRemoved(head, next, prev, x), Cut(l, i))
  {
    assert RingAt(next, prev, l, i) && RingAt(next, prev, l, 0);
    var x, k := l[i], Cut(l, i);
    var next', prev' := NextRemoved(head, next, prev, x), PrevRemoved(head, next, prev, x);
    forall j | 0 <= j < |k| ensures RingAt(next', prev', k, j) {
      RemoveAt(head, next, prev, l, i, j);
    }
  }

  lemma RemoveAt(head: Link, next: map<nat, Link>, prev: map<nat, Link>, l: seq<nat>, i: nat, j: nat)
    requires Tailed(head, next, prev, l) && i < |l| && j < |l| - 1
    ensures l[i] in next && l[i] in prev
    ensures RingAt(NextRemoved(head, next, prev, l[i]), PrevRemoved(head, next, prev, l[i]), Cut(l, i), j)
  {
    var m := if j < i then j else j + 1;
    assert RingAt(next, prev, l, i) && RingAt(next, prev, l, m) && RingAt(next, prev, l, 0);
    assert Cut(l, i)[j] == l[m];
  }

  lemma InCut(l: seq<nat>, i: nat, j: nat)
    requires i < |l| && j < |l|
    ensures j != i ==> l[j] in Cut(l, i)
  {
    if j < i { assert Cut(l, i)[j] == l[j]; } else if j > i { assert Cut(l, i)[j - 1] == l[j]; }
  }

  lemma NeighboursIn(head: Link, next: map<nat, Link>, prev: map<nat, Link>, l: seq<nat>, i: nat)
    requires Tailed(head, next, prev, l) && i < |l|
    ensures l[i] in next && l[i] in prev
    ensures (next[l[i]].Some? ==> next[l[i]].value in l) && (prev[l[i]].Some? ==> prev[l[i]].value in l)
  {
    assert RingAt(next, prev, l, i);
  }

  lemma {:induction false} CutIsWithout(l: seq<nat>, i: nat)
    requires Distinct(l) && i < |l|
    ensures Without(l, l[i]) == Cut(l, i)
  {
    if i == 0 {
      assert l[0] !in l[1..];
      assert Cut(l, 0) == l[1..];
    } else {
      assert Cut(l, i) == [l[0]] + Cut(l[1..], i - 1);
      CutIsWithout(l[1..], i - 1);
    }
  }

  // ---------------------------------------------------------------- several lists through the same links

  /** `heads` says where each list begins; the links are those of all of them. */
  datatype Threads = Threads(heads: map<nat, Link>, next: map<nat, Link>, prev: map<nat, Link>)

  ghost predicate OnNone(lists: map<nat, seq<nat>>, x: nat) {
    forall z :: z in lists ==> x !in lists[z]
  }

  /** If on a list at all, then on this one. */
  ghost predicate OnlyOn(lists: map<nat, seq<nat>>, z: nat, x: nat) {
    forall y :: y in lists && x in lists[y] ==> y == z
  }

  ghost predicate Apart(lists: map<nat, seq<nat>>) {
    forall y, z :: y in lists && z in lists && y != z ==> NoneShared(lists[y], lists[z])
  }

  ghost predicate NoneShared(a: seq<nat>, b: seq<nat>) {
    forall x :: x in a ==> x !in b
  }

  ghost predicate Covers(t: Threads, lists: map<nat, seq<nat>>, all: set<nat>) {
    t.heads.Keys == lists.Keys && t.next.Keys == all && t.prev.Keys == all
  }

  /** The objects in `all` have links; those on no list have null ones. */
  ghost predicate Woven(t: Threads, lists: map<nat, seq<nat>>, all: set<nat>) {
    && Covers(t, lists, all) && Apart(lists)
    && (forall z :: z in lists ==> Tailed(t.heads[z], t.next, t.prev, lists[z]))
    && (forall x :: x in all && OnNone(lists, x) ==> t.next[x] == None && t.prev[x] == None)
  }

  lemma UntouchedRing(head: Link, next: map<nat, Link>, prev: map<nat, Link>, next': map<nat, Link>,
                      prev': map<nat, Link>, l: seq<nat>)
    requires Tailed(head, next, prev, l)
    requires forall x :: x in l ==> x in next' && x in prev' && (x in next ==> next'[x] == next[x]) && (x in prev ==> prev'[x] == prev[x])
    ensures Tailed(head, next', prev', l)
  {
    forall i | 0 <= i < |l| ensures RingAt(next', prev', l, i) { assert RingAt(next, prev, l, i); }
  }

  /** Only list `z` and the links of `x` and of the list's members change. */
  ghost predicate Local(t: Threads, u: Threads, l: seq<nat>, z: nat, x: nat) {
    && u.next.Keys == t.next.Keys && u.prev.Keys == t.prev.Keys
    && u.heads.Keys == t.heads.Keys + {z} && (forall y :: y in t.heads && y != z ==> u.heads[y] == t.heads[y])
    && (forall y :: y in t.next && y != x && y !in l ==> u.next[y] == t.next[y])
    && (forall y :: y in t.prev && y != x && y !in l ==> u.prev[y] == t.prev[y])
  }

  lemma ListApart(lists: map<nat, seq<nat>>, z: nat, x: nat, k: seq<nat>)
    requires Apart(lists) && z in lists && OnlyOn(lists, z, x) && forall y :: y in k ==> y in lists[z] || y == x
    ensures Apart(lists[z := k])
  {
    var after := lists[z := k];
    forall y, w | y in after && w in after && y != w ensures NoneShared(after[y], after[w]) {
      assert NoneShared(lists[y], lists[w]);
    }
  }

  lemma Rewoven(t: Threads, u: Threads, lists: map<nat, seq<nat>>, all: set<nat>, z: nat, x: nat, k: seq<nat>)
    requires Woven(t, lists, all) && z in lists && x in all && OnlyOn(lists, z, x) && Local(t, u, lists[z], z, x)
    requires (forall y :: y in k ==> y in lists[z] || y == x) && (forall y :: y in lists[z] ==> y in k || y == x)
    requires Tailed(u.heads[z], u.next, u.prev, k) && (x !in k ==> u.next[x] == None && u.prev[x] == None)
    ensures Woven(u, lists[z := k], all)
  {
    hide Tailed, Apart, Local, OnNone;
    var after := lists[z := k];
    ListApart(lists, z, x, k);
    LocalKeys(t, u, lists[z], z, x);
    forall y | y in after && y != z ensures Tailed(u.heads[y], u.next, u.prev, after[y]) {
      OtherRing(t, u, lists, all, z, x, y);
    }
    forall y | y in all && OnNone(after, y) ensures u.next[y] == None && u.prev[y] == None {
      OffAfter(t, u, lists, all, z, x, k, y);
    }
  }

  lemma LocalKeys(t: Threads, u: Threads, l: seq<nat>, z: nat, x: nat)
    requires Local(t, u, l, z, x)
    ensures u.next.Keys == t.next.Keys && u.prev.Keys == t.prev.Keys && u.heads.Keys == t.heads.Keys + {z}
  {
  }

  lemma OtherRing(t: Threads, u: Threads, lists: map<nat, seq<nat>>, all: set<nat>, z: nat, x: nat, y: nat)
    requires Covers(t, lists, all) && Apart(lists) && z in lists && OnlyOn(lists, z, x) && Local(t, u, lists[z], z, x)
    requires y in lists && y != z && Tailed(t.heads[y], t.next, t.prev, lists[y])
    ensures y in u.heads && Tailed(u.heads[y], u.next, u.prev, lists[y])
  {
    hide Tailed;
    assert NoneShared(lists[y], lists[z]);
    RingIn(t.heads[y], t.next, t.prev, lists[y]);
    UntouchedRing(t.heads[y], t.next, t.prev, u.next, u.prev, lists[y]);
  }

  lemma OffAfter(t: Threads, u: Threads, lists: map<nat, seq<nat>>, all: set<nat>, z: nat, x: nat, k: seq<nat>, y: nat)
    requires Covers(t, lists, all) && z in lists && Local(t, u, lists[z], z, x) && y in all && x in all && OnNone(lists[z := k], y)
    requires forall w :: w in all && OnNone(lists, w) ==> t.next[w] == None && t.prev[w] == None
    requires (forall w :: w in lists[z] ==> w in k || w == x) && (x !in k ==> u.next[x] == None && u.prev[x] == None)
    ensures u.next[y] == None && u.prev[y] == None
  {
    assert y !in lists[z := k][z];
    if y != x { OffBefore(lists, z, k, y); }
  }

  lemma OffBefore(lists: map<nat, seq<nat>>, z: nat, k: seq<nat>, y: nat)
    requires z in lists && OnNone(lists[z := k], y) && (y in lists[z] ==> y in k)
    ensures OnNone(lists, y)
  {
    forall w | w in lists ensures y !in lists[w] { assert y !in lists[z := k][w]; }
  }

  lemma RingIn(head: Link, next: map<nat, Link>, prev: map<nat, Link>, l: seq<nat>)
    requires Tailed(head, next, prev, l)
    ensures forall x :: x in l ==> x in next && x in prev
  {
    forall x | x in l ensures x in next && x in prev {
      var i :| 0 <= i < |l| && l[i] == x;
      assert RingAt(next, prev, l, i);
    }
  }

  /** insert_on_free_list and append_on_free_list: at the head or at the tail. */
  method Insert(t: Threads, z: nat, x: nat, front: bool, ghost lists: map<nat, seq<nat>>, ghost all: set<nat>) returns (u: Threads)
    requires Woven(t, lists, all) && z in lists && x in all && OnNone(lists, x)
    ensures Woven(u, lists[z := if front then [x] + lists[z] else lists[z] + [x]], all)
  {
    hide Tailed, Apart, OnNone, Linked, Ring;
    OffNow(t, lists, all, z, x);
    var next, prev := t.next, t.prev;
    var h := t.heads[z];
    ghost var l := lists[z];
    HeadIs(h, next, prev, l);
    RingIn(h, next, prev, l);
    if h == None {
      AloneOk(next, prev, x);
      prev := prev[x := Some(x)];
      u := Threads(t.heads[z := Some(x)], next, prev);
      assert [x] + l == l + [x] == [x];
      Rewoven(t, u, lists, all, z, x, [x]);
      return;
    }
    Ends(h, next, prev, l);
    var tail := prev[h.value];
    if front {
      FrontOk(h, next, prev, l, x);
      prev := prev[x := tail];
      next := next[x := h];
      prev := prev[h.value := Some(x)];
      u := Threads(t.heads[z := Some(x)], next, prev);
      Rewoven(t, u, lists, all, z, x, [x] + l);
    } else {
      BackOk(h, next, prev, l, x);
      prev := prev[x := tail];
      next := next[tail.value := Some(x)];
      prev := prev[h.value := Some(x)];
      u := Threads(t.heads, next, prev);
      Rewoven(t, u, lists, all, z, x, l + [x]);
    }
  }

  lemma OffNow(t: Threads, lists: map<nat, seq<nat>>, all: set<nat>, z: nat, x: nat)
    requires Woven(t, lists, all) && z in lists && x in all && OnNone(lists, x)
    ensures t.next[x] == None && t.prev[x] == None && x !in lists[z] && OnlyOn(lists, z, x)
  {
  }

  lemma HeadIs(head: Link, next: map<nat, Link>, prev: map<nat, Link>, l: seq<nat>)
    requires Tailed(head, next, prev, l)
    ensures head == First(l)
  {
  }

  /** insert_on_dirty_list leaves a buffer alone that has links already: it is on the list. */
  method InsertOnce(t: Threads, z: nat, x: nat, ghost lists: map<nat, seq<nat>>, ghost all: set<nat>) returns (u: Threads, added: bool)
    requires Woven(t, lists, all) && z in lists && x in all && OnlyOn(lists, z, x)
    ensures added == (x !in lists[z])
    ensures Woven(u, if added then lists[z := lists[z] + [x]] else lists, all)
  {
    LinkedIff(t, lists, all, z, x);
    hide Tailed;
    if t.prev[x].Some? || t.next[x].Some? { return t, false; }
    u := Insert(t, z, x, false, lists, all);
    added := true;
  }

  lemma LinkedIff(t: Threads, lists: map<nat, seq<nat>>, all: set<nat>, z: nat, x: nat)
    requires Woven(t, lists, all) && z in lists && x in all && OnlyOn(lists, z, x)
    ensures x in lists[z] <==> t.prev[x].Some? || t.next[x].Some?
    ensures x !in lists[z] ==> OnNone(lists, x)
  {
    if x in lists[z] {
      var i :| 0 <= i < |lists[z]| && lists[z][i] == x;
      assert RingAt(t.next, t.prev, lists[z], i);
    }
  }

  /** remove_from_free_list and remove_from_dirty_list. */
  method Remove(t: Threads, z: nat, x: nat, ghost lists: map<nat, seq<nat>>, ghost all: set<nat>) returns (u: Threads)
    requires Woven(t, lists, all) && z in lists && x in lists[z]
    ensures Woven(u, lists[z := Without(lists[z], x)], all)
  {
    hide Tailed, Apart, Local;
    var h := t.heads[z];
    ghost var l := lists[z];
    ghost var i: nat :| i < |l| && l[i] == x;
    RingIn(h, t.next, t.prev, l);
    RemoveOk(h, t.next, t.prev, l, i);
    Ends(h, t.next, t.prev, l);
    NeighboursIn(h, t.next, t.prev, l, i);
    IsDistinct(h, t.next, t.prev, l);
    CutIsWithout(l, i);
    OnThis(lists, z, x);
    RemoveLocal(t, l, z, x);
    u := Unring(t, z, x);
    Rewoven(t, u, lists, all, z, x, Without(l, x));
  }

  function Unringed(t: Threads, z: nat, x: nat): Threads
    requires z in t.heads && x in t.next && x in t.prev
  {
    var h := t.heads[z];
    Threads(t.heads[z := if h == Some(x) then t.next[x] else h], NextRemoved(h, t.next, t.prev, x), PrevRemoved(h, t.next, t.prev, x))
  }

  method Unring(t: Threads, z: nat, x: nat) returns (u: Threads)
    requires z in t.heads && t.heads[z].Some? && x in t.next && x in t.prev
    requires t.next[x] != Some(x) && (t.heads[z] != Some(x) ==> t.prev[x] != Some(x))
    ensures u == Unringed(t, z, x)
  {
    var next, prev, h := t.next, t.prev, t.heads[z];
    if next[x].Some? {
      prev := prev[next[x].value := prev[x]];
    }
    if prev[x].Some? && Some(x) != h {
      next := next[prev[x].value := next[x]];
    }
    if next[x] == None {
      prev := prev[h.value := prev[x]];
    }
    var heads := t.heads;
    if Some(x) == h {
      heads := heads[z := next[x]];
    } else {
      assert heads[z := h] == heads;
    }
    prev := prev[x := None];
    next := next[x := None];
    u := Threads(heads, next, prev);
  }

  lemma RemoveLocal(t: Threads, l: seq<nat>, z: nat, x: nat)
    requires z in t.heads && x in t.next && x in t.prev && t.next.Keys == t.prev.Keys && (forall y :: y in l ==> y in t.next)
    requires t.heads[z].Some? && t.heads[z].value in l
    requires (t.next[x].Some? ==> t.next[x].value in l) && (t.prev[x].Some? ==> t.prev[x].value in l)
    ensures Local(t, Unringed(t, z, x), l, z, x)
    ensures var u := Unringed(t, z, x); x in u.next && x in u.prev && u.next[x] == None && u.prev[x] == None
  {
  }

  lemma IsDistinct(head: Link, next: map<nat, Link>, prev: map<nat, Link>, l: seq<nat>)
    requires Tailed(head, next, prev, l)
    ensures Distinct(l)
  {
  }

  lemma OnThis(lists: map<nat, seq<nat>>, z: nat, x: nat)
    requires Apart(lists) && z in lists && x in lists[z]
    ensures OnlyOn(lists, z, x)
  {
    forall y | y in lists && y != z ensures x !in lists[y] { assert NoneShared(lists[z], lists[y]); }
  }

  lemma OnWoven(t: Threads, lists: map<nat, seq<nat>>, all: set<nat>, z: nat, x: nat)
    requires Woven(t, lists, all) && z in lists && x in lists[z]
    ensures OnlyOn(lists, z, x) && x in all
  {
    OnThis(lists, z, x);
    RingIn(t.heads[z], t.next, t.prev, lists[z]);
  }

  lemma TakenOff(lists: map<nat, seq<nat>>, z: nat, x: nat)
    requires z in lists && OnlyOn(lists, z, x)
    ensures OnNone(lists[z := Without(lists[z], x)], x)
  {
  }

  /** A new object, on no list; and one gone that is on none. */
  function With(t: Threads, x: nat): Threads {
    t.(next := t.next[x := None], prev := t.prev[x := None])
  }

  function Less(t: Threads, x: nat): Threads {
    t.(next := t.next - {x}, prev := t.prev - {x})
  }

  lemma WithWoven(t: Threads, lists: map<nat, seq<nat>>, all: set<nat>, x: nat)
    requires Woven(t, lists, all) && x !in all
    ensures Woven(With(t, x), lists, all + {x})
  {
    var u := With(t, x);
    forall z | z in lists ensures Tailed(u.heads[z], u.next, u.prev, lists[z]) {
      RingIn(t.heads[z], t.next, t.prev, lists[z]);
      UntouchedRing(t.heads[z], t.next, t.prev, u.next, u.prev, lists[z]);
    }
  }

  lemma LessWoven(t: Threads, lists: map<nat, seq<nat>>, all: set<nat>, x: nat)
    requires Woven(t, lists, all) && OnNone(lists, x)
    ensures Woven(Less(t, x), lists, all - {x})
  {
    var u := Less(t, x);
    forall z | z in lists ensures Tailed(u.heads[z], u.next, u.prev, lists[z]) {
      RingIn(t.heads[z], t.next, t.prev, lists[z]);
      UntouchedRing(t.heads[z], t.next, t.prev, u.next, u.prev, lists[z]);
    }
  }

  // ---------------------------------------------------------------- several chains through the same links

  /** An object on no chain may have any links. */
  ghost predicate Chained(t: Threads, lists: map<nat, seq<nat>>, all: set<nat>) {
    && Covers(t, lists, all) && Apart(lists)
    && (forall z :: z in lists ==> Chain(t.heads[z], t.next, t.prev, lists[z]))
  }

  lemma Rechained(t: Threads, u: Threads, lists: map<nat, seq<nat>>, all: set<nat>, z: nat, x: nat, k: seq<nat>)
    requires Chained(t, lists, all) && z in lists && x in all && OnlyOn(lists, z, x) && Local(t, u, lists[z], z, x)
    requires (forall y :: y in k ==> y in lists[z] || y == x) && Chain(u.heads[z], u.next, u.prev, k)
    ensures Chained(u, lists[z := k], all)
  {
    var after := lists[z := k];
    ListApart(lists, z, x, k);
    forall y | y in after && y != z ensures Chain(u.heads[y], u.next, u.prev, after[y]) {
      assert NoneShared(lists[y], lists[z]);
      ChainIn(t.heads[y], t.next, t.prev, lists[y]);
      Untouched(t.heads[y], t.next, t.prev, u.next, u.prev, lists[y]);
    }
  }

  lemma ChainIn(head: Link, next: map<nat, Link>, prev: map<nat, Link>, l: seq<nat>)
    requires Chain(head, next, prev, l)
    ensures forall x :: x in l ==> x in next && x in prev
  {
    forall x | x in l ensures x in next && x in prev {
      var i :| 0 <= i < |l| && l[i] == x;
      assert LinkedAt(next, prev, l, i);
    }
  }

  /** insert_to_hash. */
  method Push(t: Threads, z: nat, x: nat, ghost lists: map<nat, seq<nat>>, ghost all: set<nat>) returns (u: Threads)
    requires Chained(t, lists, all) && z in lists && x in all && OnNone(lists, x)
    ensures Chained(u, lists[z := [x] + lists[z]], all)
  {
    hide Chain, Apart;
    var h := t.heads[z];
    ChainIn(h, t.next, t.prev, lists[z]);
    HeadOf(h, t.next, t.prev, lists[z]);
    PushChain(h, t.next, t.prev, lists[z], x);
    var prev := t.prev[x := None];
    if h.Some? { prev := prev[h.value := Some(x)]; }
    u := Threads(t.heads[z := Some(x)], t.next[x := h], prev);
    Rechained(t, u, lists, all, z, x, [x] + lists[z]);
  }

  lemma HeadOf(head: Link, next: map<nat, Link>, prev: map<nat, Link>, l: seq<nat>)
    requires Chain(head, next, prev, l)
    ensures head == First(l) && Distinct(l)
  {
  }

  /** Where a walk along a chain stands: on the head, or on an object's `next`. */
  datatype Cursor = Head | After(p: nat)

  /** The cursor stands behind what has been looked at. */
  function CursorOf(done: seq<nat>): Cursor {
    if done == [] then Head else After(done[|done| - 1])
  }

  lemma CursorAt(head: Link, next: map<nat, Link>, prev: map<nat, Link>, done: seq<nat>, rest: seq<nat>)
    requires Chain(head, next, prev, done + rest)
    ensures done == [] ==> head == First(rest)
    ensures done != [] ==> done[|done| - 1] in next && next[done[|done| - 1]] == First(rest)
  {
    var l := done + rest;
    if done == [] {
      assert l == rest;
    } else {
      assert LinkedAt(next, prev, l, |done| - 1);
    }
  }

  /** remove_from_hash: the chain is searched for the object, which may not be on it. */
  method Unhash(t: Threads, z: nat, x: nat, ghost lists: map<nat, seq<nat>>, ghost all: set<nat>) returns (u: Threads)
    requires Chained(t, lists, all) && z in lists && x in all && OnlyOn(lists, z, x)
    ensures Chained(u, lists[z := Without(lists[z], x)], all)
  {
    hide Chain, Apart, Without, Covers;
    ghost var l := lists[z];
    Heads(t, lists, all, z);
    ChainIn(t.heads[z], t.next, t.prev, l);
    var h, p := Head, t.heads[z];
    ghost var i := 0;
    while p.Some?
      invariant i <= |l| && (h == Head <==> i == 0) && p == (if i < |l| then Some(l[i]) else None)
      invariant forall j :: 0 <= j < i ==> l[j] != x
      decreases |l| - i
    {
      if p == Some(x) {
        u := Unchain(t, z, x, h == Head, lists, all, i);
        return;
      }
      Onward(t.heads[z], t.next, t.prev, l, i);
      h := After(p.value);
      p := t.next[p.value];
      i := i + 1;
    }
    assert x !in l;
    assert lists[z := l] == lists;
    u := t;
  }

  lemma Heads(t: Threads, lists: map<nat, seq<nat>>, all: set<nat>, z: nat)
    requires Chained(t, lists, all) && z in lists
    ensures z in t.heads && t.heads[z] == First(lists[z]) && Chain(t.heads[z], t.next, t.prev, lists[z])
  {
  }

  /** Along a chain. */
  lemma Onward(head: Link, next: map<nat, Link>, prev: map<nat, Link>, l: seq<nat>, i: nat)
    requires Chain(head, next, prev, l) && i < |l|
    ensures l[i] in next && next[l[i]] == NextIn(l, i)
  {
    assert LinkedAt(next, prev, l, i);
  }

  method Unchain(t: Threads, z: nat, x: nat, atHead: bool, ghost lists: map<nat, seq<nat>>, ghost all: set<nat>, ghost i: nat) returns (u: Threads)
    requires Chained(t, lists, all) && z in lists && x in all && OnlyOn(lists, z, x)
    requires i < |lists[z]| && lists[z][i] == x && atHead == (i == 0)
    ensures Chained(u, lists[z := Without(lists[z], x)], all)
  {
    hide Chain, Apart, Local;
    ghost var l := lists[z];
    UnlinkChain(t.heads[z], t.next, t.prev, l, i);
    ChainIn(t.heads[z], t.next, t.prev, l);
    HeadOf(t.heads[z], t.next, t.prev, l);
    Beside(t.heads[z], t.next, t.prev, l, i);
    CutIsWithout(l, i);
    UnlinkLocal(t, l, z, x, if atHead then t.next[x] else t.heads[z]);
    var next, prev := t.next, t.prev;
    if next[x].Some? { prev := prev[next[x].value := prev[x]]; }
    if prev[x].Some? { next := next[prev[x].value := next[x]]; }
    u := Threads(if atHead then t.heads[z := next[x]] else t.heads, next, prev);
    assert t.heads[z := t.heads[z]] == t.heads;
    Rechained(t, u, lists, all, z, x, Without(l, x));
  }

  lemma UnlinkLocal(t: Threads, l: seq<nat>, z: nat, x: nat, h: Link)
    requires z in t.heads && x in t.next && x in t.prev && t.next.Keys == t.prev.Keys && (forall y :: y in l ==> y in t.next)
    requires (t.next[x].Some? ==> t.next[x].value in l) && (t.prev[x].Some? ==> t.prev[x].value in l)
    ensures Local(t, Threads(t.heads[z := h], NextWithout(t.next, t.prev, x), PrevWithout(t.next, t.prev, x)), l, z, x)
  {
  }

  lemma Beside(head: Link, next: map<nat, Link>, prev: map<nat, Link>, l: seq<nat>, i: nat)
    requires Chain(head, next, prev, l) && i < |l|
    ensures l[i] in next && l[i] in prev && next[l[i]] != Some(l[i]) && prev[l[i]] != Some(l[i])
    ensures (next[l[i]].Some? ==> next[l[i]].value in l) && (prev[l[i]].Some? ==> prev[l[i]].value in l)
  {
    assert LinkedAt(next, prev, l, i);
  }

  lemma WithChained(t: Threads, lists: map<nat, seq<nat>>, all: set<nat>, x: nat)
    requires Chained(t, lists, all) && x !in all
    ensures Chained(With(t, x), lists, all + {x})
  {
    var u := With(t, x);
    forall z | z in lists ensures Chain(u.heads[z], u.next, u.prev, lists[z]) {
      ChainIn(t.heads[z], t.next, t.prev, lists[z]);
      Untouched(t.heads[z], t.next, t.prev, u.next, u.prev, lists[z]);
    }
  }

  lemma LessChained(t: Threads, lists: map<nat, seq<nat>>, all: set<nat>, x: nat)
    requires Chained(t, lists, all) && OnNone(lists, x)
    ensures Chained(Less(t, x), lists, all - {x})
  {
    var u := Less(t, x);
    forall z | z in lists ensures Chain(u.heads[z], u.next, u.prev, lists[z]) {
      ChainIn(t.heads[z], t.next, t.prev, lists[z]);
      Untouched(t.heads[z], t.next, t.prev, u.next, u.prev, lists[z]);
    }
  }
}
