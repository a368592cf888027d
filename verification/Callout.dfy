/**
 The kernel's timer list: every entry keeps only the ticks between itself and the entry before it,
 so that a tick touches nothing but the head.

 A callout is known by its function and argument, here one number, and lives in a slot from a pool.
 */
module Callout {
  import opened Lists

  datatype Entry = Entry(slot: nat, key: nat, expires: nat)

  /** A callout and the tick it is due at. */
  datatype Due = Due(key: nat, at: nat)

  // ---------------------------------------------------------------- deadlines

  /** The deadlines a list of differences stands for, counted from `base`. */
  function Deadlines(l: seq<Entry>, base: nat): (r: seq<Due>)
    ensures |r| == |l|
  {
    if l == [] then [] else [Due(l[0].key, base + l[0].expires)] + Deadlines(l[1..], base + l[0].expires)
  }

  predicate Ordered(due: seq<Due>) {
    forall i, j :: 0 <= i < j < |due| ==> due[i].at <= due[j].at
  }

  lemma {:induction false} DeadlineAt(l: seq<Entry>, base: nat, i: nat)
    requires i < |l|
    ensures Deadlines(l, base)[i].key == l[i].key && Deadlines(l, base)[i].at >= base
  {
    if i > 0 { DeadlineAt(l[1..], base + l[0].expires, i - 1); }
  }

  lemma {:induction false} DeadlinesOrdered(l: seq<Entry>, base: nat)
    ensures Ordered(Deadlines(l, base))
  {
    if l != [] {
      var rest := base + l[0].expires;
      DeadlinesOrdered(l[1..], rest);
      forall j | 0 <= j < |l| - 1 ensures Deadlines(l[1..], rest)[j].at >= rest { DeadlineAt(l[1..], rest, j); }
    }
  }

  function Sum(l: seq<Entry>): nat {
    if l == [] then 0 else l[0].expires + Sum(l[1..])
  }

  lemma {:induction false} DeadlinesAppend(a: seq<Entry>, b: seq<Entry>, base: nat)
    ensures Deadlines(a + b, base) == Deadlines(a, base) + Deadlines(b, base + Sum(a))
  {
    if a == [] {
      assert a + b == b;
    } else {
      assert (a + b)[1..] == a[1..] + b;
      DeadlinesAppend(a[1..], b, base + a[0].expires);
    }
  }

  lemma {:induction false} SumAppend(a: seq<Entry>, b: seq<Entry>)
    ensures Sum(a + b) == Sum(a) + Sum(b)
  {
    if a == [] {
      assert a + b == b;
    } else {
      assert (a + b)[1..] == a[1..] + b;
      SumAppend(a[1..], b);
    }
  }

  /** Of the deadlines of a prefix, the last is the greatest. */
  lemma {:induction false} LastDeadline(a: seq<Entry>, base: nat)
    ensures forall d :: d in Deadlines(a, base) ==> d.at <= base + Sum(a)
  {
    if a != [] { LastDeadline(a[1..], base + a[0].expires); }
  }

  // ---------------------------------------------------------------- the plain timetable

  function Drop(due: seq<Due>, key: nat): seq<Due> {
    if due == [] then [] else if due[0].key == key then due[1..] else [due[0]] + Drop(due[1..], key)
  }

  /** Behind everything that is due no later. */
  function Insert(due: seq<Due>, d: Due): seq<Due> {
    if due == [] then [d] else if due[0].at > d.at then [d] + due else [due[0]] + Insert(due[1..], d)
  }

  lemma {:induction false} InsertSplit(a: seq<Due>, b: seq<Due>, d: Due)
    requires (forall x :: x in a ==> x.at <= d.at) && (b == [] || b[0].at > d.at)
    ensures Insert(a + b, d) == a + ([d] + b)
  {
    if a == [] {
      assert a + b == b;
    } else {
      assert (a + b)[1..] == a[1..] + b;
      assert a[0] in a;
      InsertSplit(a[1..], b, d);
    }
  }

  lemma {:induction false} DropSplit(a: seq<Due>, b: seq<Due>, key: nat)
    requires (forall x :: x in a ==> x.key != key) && (b == [] || b[0].key == key)
    ensures Drop(a + b, key) == a + (if b == [] then [] else b[1..])
  {
    if a == [] {
      assert a + b == b;
    } else {
      assert (a + b)[1..] == a[1..] + b;
      assert a[0] in a;
      DropSplit(a[1..], b, key);
    }
  }

  // ---------------------------------------------------------------- the callout list

  function Slots(l: seq<Entry>): multiset<nat> {
    if l == [] then multiset{} else multiset{l[0].slot} + Slots(l[1..])
  }

  lemma {:induction false} SlotsAppend(a: seq<Entry>, b: seq<Entry>)
    ensures Slots(a + b) == Slots(a) + Slots(b)
  {
    if a == [] {
      assert a + b == b;
    } else {
      assert (a + b)[1..] == a[1..] + b;
      SlotsAppend(a[1..], b);
    }
  }

  /** Taking out the first entry: its ticks go to the one behind it. */
  function Shift(b: seq<Entry>): seq<Entry>
    requires b != []
  {
    if |b| > 1 then [b[1].(expires := b[1].expires + b[0].expires)] + b[2..] else []
  }

  lemma ShiftDeadlines(b: seq<Entry>, base: nat)
    requires b != []
    ensures Deadlines(Shift(b), base) == Deadlines(b, base)[1..]
    ensures Slots(b) == multiset{b[0].slot} + Slots(Shift(b))
  {
    if |b| > 1 {
      assert b[1..][1..] == b[2..] == Shift(b)[1..];
    } else {
      assert b[1..] == [];
    }
  }

  /** Putting an entry in front: its ticks are taken off the one behind it. */
  function Front(e: Entry, b: seq<Entry>): seq<Entry>
    requires b != [] ==> b[0].expires >= e.expires
  {
    if b == [] then [e] else [e] + ([b[0].(expires := b[0].expires - e.expires)] + b[1..])
  }

  lemma FrontDeadlines(e: Entry, b: seq<Entry>, base: nat)
    requires b != [] ==> b[0].expires >= e.expires
    ensures Deadlines(Front(e, b), base) == [Due(e.key, base + e.expires)] + Deadlines(b, base)
    ensures Slots(Front(e, b)) == multiset{e.slot} + Slots(b)
  {
    if b == [] {
      assert Front(e, b)[1..] == [];
    } else {
      var c := [b[0].(expires := b[0].expires - e.expires)] + b[1..];
      assert Front(e, b)[1..] == c && c[1..] == b[1..];
    }
  }

  lemma RemovedDeadlines(l: seq<Entry>, i: nat, base: nat)
    requires i < |l| && forall j :: 0 <= j < i ==> l[j].key != l[i].key
    ensures Deadlines(l[..i] + Shift(l[i..]), base) == Drop(Deadlines(l, base), l[i].key)
    ensures Slots(l) == Slots(l[..i] + Shift(l[i..])) + multiset{l[i].slot}
  {
    var a, b := l[..i], l[i..];
    DeadlineAt(b, base + Sum(a), 0);
    hide Slots, Shift, Deadlines, Sum, Drop;
    assert l == a + b;
    DeadlinesAppend(a, b, base);
    DeadlinesAppend(a, Shift(b), base);
    SlotsAppend(a, b);
    SlotsAppend(a, Shift(b));
    ShiftDeadlines(b, base + Sum(a));
    OtherKeys(a, base, l[i].key);
    DropSplit(Deadlines(a, base), Deadlines(b, base + Sum(a)), l[i].key);
  }

  lemma OtherKeys(a: seq<Entry>, base: nat, key: nat)
    requires forall j :: 0 <= j < |a| ==> a[j].key != key
    ensures forall x :: x in Deadlines(a, base) ==> x.key != key
  {
    forall x | x in Deadlines(a, base) ensures x.key != key {
      var j :| 0 <= j < |a| && Deadlines(a, base)[j] == x;
      DeadlineAt(a, base, j);
    }
  }

  lemma AddedDeadlines(l: seq<Entry>, i: nat, e: Entry, base: nat)
    requires i <= |l| && (i < |l| ==> l[i].expires > e.expires)
    ensures Deadlines(l[..i] + Front(e, l[i..]), base) == Insert(Deadlines(l, base), Due(e.key, base + Sum(l[..i]) + e.expires))
  {
    hide *;
    var a, b := l[..i], l[i..];
    assert l == a + b;
    DeadlinesAppend(a, b, base);
    DeadlinesAppend(a, Front(e, b), base);
    LastDeadline(a, base);
    FrontDeadlines(e, b, base + Sum(a));
    FirstLater(e, b, base + Sum(a));
    InsertSplit(Deadlines(a, base), Deadlines(b, base + Sum(a)), Due(e.key, base + Sum(a) + e.expires));
  }

  lemma FirstLater(e: Entry, b: seq<Entry>, base: nat)
    requires b == [] || b[0].expires > e.expires
    ensures Deadlines(b, base) == [] || Deadlines(b, base)[0].at > base + e.expires
  {
  }

  lemma AddedSlots(l: seq<Entry>, i: nat, e: Entry)
    requires i <= |l| && (i < |l| ==> l[i].expires > e.expires)
    ensures Slots(l[..i] + Front(e, l[i..])) == Slots(l) + multiset{e.slot}
  {
    hide *;
    var a, b := l[..i], l[i..];
    assert l == a + b;
    SlotsAppend(a, b);
    SlotsAppend(a, Front(e, b));
    FrontDeadlines(e, b, 0);
  }

  /** The callouts that fire once it is `now`, in order, and those left. */
  function Fire(due: seq<Due>, now: nat): seq<nat> {
    if due == [] || due[0].at > now then [] else [due[0].key] + Fire(due[1..], now)
  }

  function Left(due: seq<Due>, now: nat): seq<Due> {
    if due == [] || due[0].at > now then due else Left(due[1..], now)
  }

  /** Every deadline one tick later. */
  function Later(due: seq<Due>): (r: seq<Due>)
    ensures |r| == |due| && forall i :: 0 <= i < |due| ==> r[i] == Due(due[i].key, due[i].at + 1)
  {
    if due == [] then [] else [Due(due[0].key, due[0].at + 1)] + Later(due[1..])
  }

  lemma {:induction false} LaterBase(l: seq<Entry>, base: nat)
    ensures Deadlines(l, base + 1) == Later(Deadlines(l, base))
  {
    if l != [] {
      LaterBase(l[1..], base + l[0].expires);
      var d := Deadlines(l, base);
      assert d[1..] == Deadlines(l[1..], base + l[0].expires);
    }
  }

  function Ticked(l: seq<Entry>): seq<Entry> {
    if l != [] && l[0].expires > 0 then [l[0].(expires := l[0].expires - 1)] + l[1..] else l
  }

  /** A tick leaves every deadline where it is exactly when the head was not due before; otherwise
      all of them slip. */
  lemma TickKeepsIff(l: seq<Entry>, now: nat)
    ensures Deadlines(Ticked(l), now + 1) == Deadlines(l, now) <==> l == [] || l[0].expires > 0
  {
    if l != [] {
      if l[0].expires > 0 {
        TickHead(l, now);
      } else {
        LaterBase(l, now);
        assert Later(Deadlines(l, now))[0] != Deadlines(l, now)[0];
      }
    }
  }

  class Timer {
    var list: seq<Entry>
    var pool: seq<nat>
    ghost var now: nat
    ghost const all: multiset<nat>

    ghost predicate Valid()
      reads this
    {
      multiset(pool) + Slots(list) == all && |pool| + |list| == |all|
    }

    ghost function Table(): seq<Due>
      reads this
    {
      Deadlines(list, now)
    }

    constructor (slots: seq<nat>)
      ensures Valid() && Table() == [] && now == 0 && all == multiset(slots)
    {
      list, pool, now := [], slots, 0;
      all := multiset(slots);
    }

    /** do_del_callout: the entry goes back to the pool, its ticks to its successor. */
    method DoDel(i: nat)
      requires Valid() && i < |list| && forall j :: 0 <= j < i ==> list[j].key != list[i].key
      modifies this`list, this`pool
      ensures Valid() && Table() == Drop(old(Table()), old(list[i].key)) && |list| == |old(list)| - 1
    {
      hide Deadlines, Slots, Drop;
      RemovedDeadlines(list, i, now);
      assert |Shift(list[i..])| == |list| - i - 1;
      var c := list[i];
      list := list[..i] + Shift(list[i..]);
      pool := [c.slot] + pool;
    }

    /** del_callout: the entry with this function and argument, if there is one. */
    method DelCallout(key: nat)
      requires Valid()
      modifies this`list, this`pool
      ensures Valid() && Table() == Drop(old(Table()), key)
    {
      var i := 0;
      while i < |list|
        invariant 0 <= i <= |list| && list == old(list) && pool == old(pool) && forall j :: 0 <= j < i ==> list[j].key != key
      {
        if list[i].key == key {
          DoDel(i);
          return;
        }
        i := i + 1;
      }
      OtherKeys(list, now, key);
      DropSplit(Table(), [], key);
      assert Table() + [] == Table();
    }

    /** add_callout: due in `ticks` ticks, behind all that is due no later; an earlier request
        for the same is replaced. Without a free slot there is none. */
    method AddCallout(key: nat, ticks: nat) returns (added: bool)
      requires Valid()
      modifies this`list, this`pool
      ensures Valid() && added == (|Drop(old(Table()), key)| < |all|)
      ensures Table() == if added then Insert(Drop(old(Table()), key), Due(key, now + ticks)) else Drop(old(Table()), key)
    {
      hide Deadlines, Slots, Drop, Insert, Sum;
      DelCallout(key);
      if pool == [] { return false; }
      var slot, expires, i := pool[0], ticks, 0;
      ghost var was, free := list, pool;
      assert list[..0] == [] && Sum([]) == 0 by { SumNil(); }
      while i < |list|
        invariant 0 <= i <= |list| && list == was && pool == free && expires >= 0 && expires + Sum(list[..i]) == ticks
      {
        if list[i].expires > expires { break; }
        SumNext(list, i);
        expires := expires - list[i].expires;
        i := i + 1;
      }
      var e := Entry(slot, key, expires);
      AddedDeadlines(list, i, e, now);
      AddedSlots(list, i, e);
      assert |Front(e, list[i..])| == |list| - i + 1;
      PoolLess(pool);
      pool := pool[1..];
      list := list[..i] + Front(e, list[i..]);
      return true;
    }

    /** The callout part of a timer tick. */
    method Tick() returns (active: bool)
      requires Valid()
      modifies this`list, this`now
      ensures Valid() && now == old(now) + 1
      ensures list == Ticked(old(list))
      ensures Table() == if old(list) == [] || old(list)[0].expires > 0 then old(Table()) else Later(old(Table()))
      ensures active == (list != [] && list[0].expires == 0)
    {
      hide Deadlines, Slots, Later;
      LaterBase(list, now);
      if list == [] { NoDeadlines(now, now + 1); }
      if list != [] {
        if list[0].expires > 0 {
          TickHead(list, now);
          list := [list[0].(expires := list[0].expires - 1)] + list[1..];
          active := list[0].expires == 0;
        } else {
          active := true;
        }
      } else {
        active := false;
      }
      now := now + 1;
    }

    /** do_callouts_bh: all that is due fires, in order. */
    method FireDue() returns (fired: seq<nat>)
      requires Valid()
      modifies this`list, this`pool
      ensures Valid() && fired == Fire(old(Table()), now) && Table() == Left(old(Table()), now)
    {
      hide Deadlines, Slots, Fire, Left;
      fired := [];
      NoFire(now);
      assert forall k: seq<nat> :: [] + k == k;
      while list != []
        invariant Valid() && fired + Fire(Table(), now) == Fire(old(Table()), now) && Left(Table(), now) == Left(old(Table()), now)
        decreases |list|
      {
        FireHead(list, now, fired);
        if list[0].expires != 0 { return; }
        var c := list[0];
        fired := fired + [c.key];
        list := list[1..];
        pool := [c.slot] + pool;
      }
    }
  }

  lemma SumNil()
    ensures Sum([]) == 0
  {
  }

  lemma SumNext(l: seq<Entry>, i: nat)
    requires i < |l|
    ensures Sum(l[..i + 1]) == Sum(l[..i]) + l[i].expires
  {
    assert l[..i + 1] == l[..i] + [l[i]];
    SumAppend(l[..i], [l[i]]);
  }

  lemma PoolLess(pool: seq<nat>)
    requires pool != []
    ensures multiset(pool) == multiset(pool[1..]) + multiset{pool[0]}
  {
    assert pool == [pool[0]] + pool[1..];
  }

  lemma NoDeadlines(a: nat, b: nat)
    ensures Deadlines([], a) == Deadlines([], b)
  {
  }

  lemma NoFire(now: nat)
    ensures Fire([], now) == [] && Left([], now) == [] && Deadlines([], now) == []
  {
  }

  lemma TickHead(l: seq<Entry>, now: nat)
    requires l != [] && l[0].expires > 0
    ensures var k := [l[0].(expires := l[0].expires - 1)] + l[1..];
      Deadlines(k, now + 1) == Deadlines(l, now) && Slots(k) == Slots(l)
  {
    assert ([l[0].(expires := l[0].expires - 1)] + l[1..])[1..] == l[1..];
  }

  lemma FireHead(l: seq<Entry>, now: nat, fired: seq<nat>)
    requires l != []
    ensures Slots(l) == multiset{l[0].slot} + Slots(l[1..])
    ensures l[0].expires != 0 ==> Fire(Deadlines(l, now), now) == [] && Left(Deadlines(l, now), now) == Deadlines(l, now)
    ensures l[0].expires == 0 ==>
      && fired + Fire(Deadlines(l, now), now) == (fired + [l[0].key]) + Fire(Deadlines(l[1..], now), now)
      && Left(Deadlines(l, now), now) == Left(Deadlines(l[1..], now), now)
  {
    if l[0].expires == 0 {
      assert Deadlines(l, now)[1..] == Deadlines(l[1..], now);
    }
  }

  // ---------------------------------------------------------------- every run

  datatype Op = Set(key: nat, ticks: nat) | Cancel(key: nat) | Pass

  /** The plain timetable: the time, and what is due when. */
  datatype Plan = Plan(now: nat, due: seq<Due>)

  predicate Sensible(ops: seq<Op>) {
    forall i :: 0 <= i < |ops| && ops[i].Set? ==> ops[i].ticks >= 1
  }

  function After(p: Plan, op: Op, slots: nat): Plan {
    match op
    case Set(key, ticks) =>
      var d := Drop(p.due, key);
      p.(due := if |d| < slots then Insert(d, Due(key, p.now + ticks)) else d)
    case Cancel(key) => p.(due := Drop(p.due, key))
    case Pass => Plan(p.now + 1, Left(p.due, p.now + 1))
  }

  function Final(ops: seq<Op>, slots: nat): Plan {
    if ops == [] then Plan(0, []) else After(Final(ops[..|ops| - 1], slots), ops[|ops| - 1], slots)
  }

  /** What fires at each operation. */
  function Shown(ops: seq<Op>, slots: nat): (r: seq<seq<nat>>)
    ensures |r| == |ops|
  {
    if ops == [] then []
    else
      var n := |ops| - 1;
      var p := Final(ops[..n], slots);
      Shown(ops[..n], slots) + [if ops[n].Pass? then Fire(p.due, p.now + 1) else []]
  }

  /** Nothing is overdue, no callout is set twice, and all is in order. */
  ghost predicate Proper(p: Plan) {
    && (forall i :: 0 <= i < |p.due| ==> p.due[i].at > p.now)
    && (forall i, j :: 0 <= i < j < |p.due| ==> p.due[i].key != p.due[j].key)
    && Ordered(p.due)
  }

  ghost predicate Follows(d: Due, x: Due) {
    x.key != d.key && x.at >= d.at
  }

  lemma ProperCons(d: Due, rest: seq<Due>, now: nat)
    requires d.at > now && Proper(Plan(now, rest)) && forall x :: x in rest ==> Follows(d, x)
    ensures Proper(Plan(now, [d] + rest))
  {
    assert forall i :: 0 <= i < |rest| ==> rest[i] in rest;
  }

  lemma ProperTail(due: seq<Due>, now: nat)
    requires Proper(Plan(now, due)) && due != []
    ensures due[0].at > now && Proper(Plan(now, due[1..])) && forall x :: x in due[1..] ==> Follows(due[0], x)
  {
    assert forall i :: 0 <= i < |due| - 1 ==> due[1..][i] == due[i + 1];
  }

  lemma HeadAndTail(due: seq<Due>)
    requires due != []
    ensures forall x :: x in due <==> x == due[0] || x in due[1..]
  {
    assert due == [due[0]] + due[1..];
  }

  lemma {:induction false} DropProper(due: seq<Due>, key: nat, now: nat)
    requires Proper(Plan(now, due))
    ensures Proper(Plan(now, Drop(due, key)))
    ensures forall d :: d in Drop(due, key) <==> d in due && d.key != key
  {
    if due != [] {
      ProperTail(due, now);
      HeadAndTail(due);
      if due[0].key != key {
        hide Proper;
        DropProper(due[1..], key, now);
        ProperCons(due[0], Drop(due[1..], key), now);
      }
    }
  }

  lemma {:induction false} InsertProper(due: seq<Due>, d: Due, now: nat)
    requires Proper(Plan(now, due)) && d.at > now && forall x :: x in due ==> x.key != d.key
    ensures Proper(Plan(now, Insert(due, d)))
    ensures forall x :: x in Insert(due, d) <==> x in due || x == d
  {
    if due == [] {
      ProperCons(d, [], now);
    } else {
      ProperTail(due, now);
      HeadAndTail(due);
      hide Proper;
      if due[0].at > d.at {
        ProperCons(d, due, now);
      } else {
        InsertProper(due[1..], d, now);
        assert due[0] in due;
        ProperCons(due[0], Insert(due[1..], d), now);
      }
    }
  }

  lemma {:induction false} LeftProper(due: seq<Due>, now: nat)
    requires Proper(Plan(now, due))
    ensures Proper(Plan(now + 1, Left(due, now + 1)))
  {
    if due != [] {
      assert forall i :: 0 <= i < |due| - 1 ==> due[1..][i] == due[i + 1];
      if due[0].at <= now + 1 { LeftProper(due[1..], now); }
    }
  }

  /** At every moment of every run nothing is overdue: what fires at a tick is due at that tick,
      neither earlier nor later, and once. */
  lemma {:induction false} OnTime(ops: seq<Op>, slots: nat)
    requires Sensible(ops)
    ensures Proper(Final(ops, slots))
  {
    if ops != [] {
      var n := |ops| - 1;
      OnTime(ops[..n], slots);
      var p := Final(ops[..n], slots);
      match ops[n] {
        case Set(key, ticks) =>
          DropProper(p.due, key, p.now);
          if |Drop(p.due, key)| < slots { InsertProper(Drop(p.due, key), Due(key, p.now + ticks), p.now); }
        case Cancel(key) =>
          DropProper(p.due, key, p.now);
        case Pass =>
          LeftProper(p.due, p.now);
      }
    }
  }

  // ---------------------------------------------------------------- when a callout fires

  lemma {:induction false} LeftHas(due: seq<Due>, now: nat, d: Due)
    requires Ordered(due)
    ensures d in Left(due, now) <==> d in due && d.at > now
  {
    if due != [] {
      HeadAndTail(due);
      if due[0].at <= now {
        LeftHas(due[1..], now, d);
      }
    }
  }

  lemma {:induction false} FireHas(due: seq<Due>, now: nat, d: Due)
    requires Ordered(due) && d in due && d.at <= now
    ensures d.key in Fire(due, now)
  {
    HeadAndTail(due);
    if due[0] != d {
      FireHas(due[1..], now, d);
    }
  }

  /** What fires is the front of the timetable. */
  lemma {:induction false} FireAt(due: seq<Due>, now: nat, k: nat)
    requires k < |Fire(due, now)|
    ensures k < |due| && Fire(due, now)[k] == due[k].key && due[k].at <= now
  {
    if k > 0 { FireAt(due[1..], now, k - 1); }
  }

  predicate About(op: Op, key: nat) {
    (op.Set? || op.Cancel?) && op.key == key
  }

  lemma Stays(p: Plan, op: Op, slots: nat, d: Due)
    requires Proper(p) && d in p.due && !About(op, d.key) && (op.Pass? ==> d.at > p.now + 1) && (op.Set? ==> op.ticks >= 1)
    ensures d in After(p, op, slots).due
  {
    match op {
      case Set(key, ticks) =>
        DropProper(p.due, key, p.now);
        InsertProper(Drop(p.due, key), Due(key, p.now + ticks), p.now);
      case Cancel(key) => DropProper(p.due, key, p.now);
      case Pass => LeftHas(p.due, p.now + 1, d);
    }
  }

  lemma CameFrom(p: Plan, op: Op, slots: nat, d: Due)
    requires Proper(p) && d in After(p, op, slots).due && (op.Set? ==> op.ticks >= 1)
    ensures (d in p.due && !About(op, d.key)) || (IsSet(p, op, slots, d.key) && d.at == p.now + op.ticks)
  {
    match op {
      case Set(key, ticks) =>
        DropProper(p.due, key, p.now);
        if |Drop(p.due, key)| < slots { InsertProper(Drop(p.due, key), Due(key, p.now + ticks), p.now); }
      case Cancel(key) => DropProper(p.due, key, p.now);
      case Pass => LeftHas(p.due, p.now + 1, d);
    }
  }

  /** The operation sets this callout, and there is a slot for it. */
  predicate IsSet(p: Plan, op: Op, slots: nat, key: nat) {
    op.Set? && op.key == key && |Drop(p.due, key)| < slots
  }

  /** The ticks from operation `i` up to operation `n`. */
  function Passes(ops: seq<Op>, i: nat, n: nat): nat
    requires n <= |ops|
  {
    if n <= i then 0 else Passes(ops, i, n - 1) + if ops[n - 1].Pass? then 1 else 0
  }

  /** Operation `i` set this callout, fewer ticks than that have passed before operation `n`, and
      nothing else was said about it meanwhile. */
  ghost predicate Pending(ops: seq<Op>, slots: nat, i: nat, n: nat, key: nat) {
    && i < n <= |ops| && IsSet(Final(ops[..i], slots), ops[i], slots, key) && Passes(ops, i, n) < ops[i].ticks
    && forall k :: i < k < n ==> !About(ops[k], key)
  }

  /** The time it was set for is up with the tick that is operation `n`. */
  ghost predicate RunsOut(ops: seq<Op>, slots: nat, i: nat, n: nat, key: nat) {
    Pending(ops, slots, i, n, key) && Passes(ops, i, n) + 1 == ops[i].ticks
  }

  lemma NextFinal(ops: seq<Op>, slots: nat, n: nat)
    requires n < |ops|
    ensures Final(ops[..n + 1], slots) == After(Final(ops[..n], slots), ops[n], slots)
  {
    assert ops[..n + 1][..n] == ops[..n];
  }

  lemma {:induction false} PendingIsDue(ops: seq<Op>, slots: nat, i: nat, n: nat, key: nat)
    requires Sensible(ops) && Pending(ops, slots, i, n, key)
    ensures var p := Final(ops[..i], slots); var q := Final(ops[..n], slots);
      Due(key, p.now + ops[i].ticks) in q.due && q.now == p.now + Passes(ops, i, n)
  {
    hide Proper, Drop, Insert, Left, Final;
    var p, m := Final(ops[..i], slots), n - 1;
    OnTime(ops[..m], slots);
    NextFinal(ops, slots, m);
    if m > i {
      PendingIsDue(ops, slots, i, m, key);
      Stays(Final(ops[..m], slots), ops[m], slots, Due(key, p.now + ops[i].ticks));
    } else {
      DropProper(p.due, key, p.now);
      InsertProper(Drop(p.due, key), Due(key, p.now + ops[i].ticks), p.now);
    }
  }

  lemma NotOverdue(p: Plan, d: Due)
    requires Proper(p) && d in p.due
    ensures d.at > p.now
  {
  }

  lemma {:induction false} DueIsPending(ops: seq<Op>, slots: nat, n: nat, d: Due) returns (i: nat)
    requires Sensible(ops) && n <= |ops| && d in Final(ops[..n], slots).due
    ensures Pending(ops, slots, i, n, d.key) && d.at == Final(ops[..i], slots).now + ops[i].ticks
  {
    hide Proper, Drop, Insert, Left;
    var m := n - 1;
    var p := Final(ops[..m], slots);
    OnTime(ops[..n], slots);
    OnTime(ops[..m], slots);
    NextFinal(ops, slots, m);
    CameFrom(p, ops[m], slots, d);
    NotOverdue(Final(ops[..n], slots), d);
    if d in p.due && !About(ops[m], d.key) {
      i := DueIsPending(ops, slots, m, d);
      PendingIsDue(ops, slots, i, m, d.key);
    } else {
      i := m;
      assert Passes(ops, m, n) == 0;
    }
  }

  lemma {:induction false} ShownAt(ops: seq<Op>, slots: nat, n: nat)
    requires n < |ops|
    ensures var p := Final(ops[..n], slots); Shown(ops, slots)[n] == if ops[n].Pass? then Fire(p.due, p.now + 1) else []
  {
    hide Fire, Final;
    var m := |ops| - 1;
    if n < m {
      ShownAt(ops[..m], slots, n);
      assert ops[..m][..n] == ops[..n];
    }
  }

  /** A callout fires at a tick exactly when it was set as many ticks before, this one counted,
      there was a slot for it, and nothing was said about it since. */
  lemma FiresIff(ops: seq<Op>, slots: nat, n: nat, key: nat)
    requires Sensible(ops) && n < |ops| && ops[n].Pass?
    ensures key in Shown(ops, slots)[n] <==>
      exists i: nat :: RunsOut(ops, slots, i, n, key)
  {
    hide Fire, Final, Pending, Passes;
    ShownAt(ops, slots, n);
    OnTime(ops[..n], slots);
    var p := Final(ops[..n], slots);
    if key in Shown(ops, slots)[n] {
      var k :| 0 <= k < |Shown(ops, slots)[n]| && Shown(ops, slots)[n][k] == key;
      FireAt(p.due, p.now + 1, k);
      var i := DueIsPending(ops, slots, n, p.due[k]);
      PendingIsDue(ops, slots, i, n, key);
      NotOverdue(p, p.due[k]);
      assert RunsOut(ops, slots, i, n, key);
    }
    forall i: nat | RunsOut(ops, slots, i, n, key) ensures key in Shown(ops, slots)[n] {
      PendingIsDue(ops, slots, i, n, key);
      FireHas(p.due, p.now + 1, Due(key, p.now + 1));
    }
  }

  // ---------------------------------------------------------------- in which order

  /** The last time a callout was set. */
  function LastSet(ops: seq<Op>, key: nat): nat {
    if ops == [] then 0
    else if ops[|ops| - 1].Set? && ops[|ops| - 1].key == key then |ops|
    else LastSet(ops[..|ops| - 1], key)
  }

  lemma {:induction false} LastSetIs(ops: seq<Op>, slots: nat, i: nat, n: nat, key: nat)
    requires Pending(ops, slots, i, n, key)
    ensures LastSet(ops[..n], key) == i + 1
  {
    assert ops[..n][..n - 1] == ops[..n - 1];
    if n - 1 > i { LastSetIs(ops, slots, i, n - 1, key); }
  }

  predicate Before(ops: seq<Op>, x: Due, y: Due) {
    x.at < y.at || (x.at == y.at && LastSet(ops, x.key) < LastSet(ops, y.key))
  }

  /** By the tick they are due at, and for one tick by when they were set. */
  ghost predicate InOrder(ops: seq<Op>, due: seq<Due>) {
    forall i, j :: 0 <= i < j < |due| ==> Before(ops, due[i], due[j])
  }

  lemma InOrderCons(ops: seq<Op>, d: Due, rest: seq<Due>)
    requires InOrder(ops, rest) && forall x :: x in rest ==> Before(ops, d, x)
    ensures InOrder(ops, [d] + rest)
  {
    assert forall i :: 0 <= i < |rest| ==> rest[i] in rest;
  }

  lemma InOrderTail(ops: seq<Op>, due: seq<Due>)
    requires InOrder(ops, due) && due != []
    ensures InOrder(ops, due[1..]) && forall x :: x in due[1..] ==> Before(ops, due[0], x)
  {
    assert forall i :: 0 <= i < |due| - 1 ==> due[1..][i] == due[i + 1];
  }

  lemma {:induction false} DropInOrder(ops: seq<Op>, due: seq<Due>, key: nat)
    requires InOrder(ops, due)
    ensures InOrder(ops, Drop(due, key)) && forall x :: x in Drop(due, key) ==> x in due
  {
    if due != [] {
      InOrderTail(ops, due);
      HeadAndTail(due);
      hide InOrder, Before;
      if due[0].key != key {
        DropInOrder(ops, due[1..], key);
        InOrderCons(ops, due[0], Drop(due[1..], key));
      }
    }
  }

  /** What is set now comes behind all that is due at the same tick. */
  lemma {:induction false} InsertInOrder(ops: seq<Op>, due: seq<Due>, d: Due)
    requires InOrder(ops, due) && forall x :: x in due ==> LastSet(ops, x.key) < LastSet(ops, d.key)
    ensures InOrder(ops, Insert(due, d)) && forall x :: x in Insert(due, d) ==> x in due || x == d
  {
    if due != [] {
      InOrderTail(ops, due);
      HeadAndTail(due);
      hide InOrder, LastSet;
      if due[0].at > d.at {
        assert forall x :: x in due ==> Before(ops, d, x);
        InOrderCons(ops, d, due);
      } else {
        InsertInOrder(ops, due[1..], d);
        assert due[0] in due;
        InOrderCons(ops, due[0], Insert(due[1..], d));
      }
    }
  }

  lemma {:induction false} LeftInOrder(ops: seq<Op>, due: seq<Due>, now: nat)
    requires InOrder(ops, due)
    ensures InOrder(ops, Left(due, now))
  {
    if due != [] && due[0].at <= now {
      InOrderTail(ops, due);
      LeftInOrder(ops, due[1..], now);
    }
  }

  lemma SameOrder(ops: seq<Op>, op: Op, due: seq<Due>)
    requires InOrder(ops, due) && forall x :: x in due ==> LastSet(ops + [op], x.key) == LastSet(ops, x.key)
    ensures InOrder(ops + [op], due)
  {
    forall i, j | 0 <= i < j < |due| ensures Before(ops + [op], due[i], due[j]) {
      assert due[i] in due && due[j] in due && Before(ops, due[i], due[j]);
    }
  }

  lemma {:induction false} LastSetBelow(ops: seq<Op>, key: nat)
    ensures LastSet(ops, key) <= |ops|
  {
    if ops != [] { LastSetBelow(ops[..|ops| - 1], key); }
  }

  lemma {:induction false} StaysInOrder(ops: seq<Op>, slots: nat)
    requires Sensible(ops)
    ensures InOrder(ops, Final(ops, slots).due)
  {
    if ops != [] {
      var n := |ops| - 1;
      var was, op := ops[..n], ops[n];
      StaysInOrder(was, slots);
      var p := Final(was, slots);
      OnTime(was, slots);
      assert ops == was + [op];
      match op {
        case Set(key, ticks) =>
          DropProper(p.due, key, p.now);
          DropInOrder(was, p.due, key);
          SameOrder(was, op, Drop(p.due, key));
          forall x | x in Drop(p.due, key) ensures LastSet(ops, x.key) < LastSet(ops, key) { LastSetBelow(was, x.key); }
          InsertInOrder(ops, Drop(p.due, key), Due(key, p.now + ticks));
        case Cancel(key) =>
          DropInOrder(was, p.due, key);
          SameOrder(was, op, Drop(p.due, key));
        case Pass =>
          LeftInOrder(was, p.due, p.now + 1);
          SameOrder(was, op, Left(p.due, p.now + 1));
      }
    }
  }

  /** Of what fires at one tick, what was set first fires first; so nothing fires twice. */
  lemma FiresInOrder(ops: seq<Op>, slots: nat, n: nat, a: nat, b: nat, i: nat, j: nat)
    requires Sensible(ops) && n < |ops| && a < b < |Shown(ops, slots)[n]|
    requires Pending(ops, slots, i, n, Shown(ops, slots)[n][a]) && Pending(ops, slots, j, n, Shown(ops, slots)[n][b])
    ensures i < j
  {
    ShownAt(ops, slots, n);
    var p := Final(ops[..n], slots);
    OnTime(ops[..n], slots);
    StaysInOrder(ops[..n], slots);
    FireAt(p.due, p.now + 1, a);
    FireAt(p.due, p.now + 1, b);
    LastSetIs(ops, slots, i, n, p.due[a].key);
    LastSetIs(ops, slots, j, n, p.due[b].key);
    hide LastSet, Fire, Pending;
    assert Before(ops[..n], p.due[a], p.due[b]);
  }

  // ---------------------------------------------------------------- the list of differences does the same

  /** Over every run with delays of a tick or more and the bottom half run at every tick, the list
      of differences fires exactly what the plain timetable fires, when it does, in its order. */
  method Run(slots: seq<nat>, ops: seq<Op>) returns (fired: seq<seq<nat>>)
    requires Sensible(ops)
    ensures fired == Shown(ops, |slots|)
  {
    hide Drop, Insert, Left, Fire, Proper, Deadlines, Slots;
    var t := new Timer(slots);
    fired := [];
    for i := 0 to |ops|
      invariant fresh(t) && t.Valid() && |t.all| == |slots| && fired == Shown(ops[..i], |slots|)
      invariant Plan(t.now, t.Table()) == Final(ops[..i], |slots|)
    {
      assert ops[..i + 1][..i] == ops[..i];
      OnTime(ops[..i], |slots|);
      match ops[i] {
        case Set(key, ticks) =>
          var added := t.AddCallout(key, ticks);
          fired := fired + [[]];
        case Cancel(key) =>
          t.DelCallout(key);
          fired := fired + [[]];
        case Pass =>
          HeadAhead(t.list, t.now);
          var active := t.Tick();
          var keys := t.FireDue();
          fired := fired + [keys];
      }
    }
    assert ops[..|ops|] == ops;
  }

  lemma HeadAhead(l: seq<Entry>, now: nat)
    requires Proper(Plan(now, Deadlines(l, now)))
    ensures l == [] || l[0].expires > 0
  {
    if l != [] { assert Deadlines(l, now)[0] == Due(l[0].key, now + l[0].expires); }
  }
}
