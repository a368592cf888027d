/**
 Sleeping and waking, and the resource locks built on them.

 A process is a number. The kernel is not preemptive: what a process does between two sleeps is
 one step, and any process that can run may take the next one.
 */
module Sleep {
  import opened Wrappers
  import opened Links

  datatype State = Running | Sleeping | Stopped | Zombie

  /** What a process's entry says: its state, what it sleeps on (0 for nothing), and whether only
      that may wake it. */
  datatype Proc = Proc(state: State, address: nat, pinned: bool)

  // ---------------------------------------------------------------- the invariant

  ghost predicate RunOk(procs: map<nat, Proc>, head: Link, next: map<nat, Link>, prev: map<nat, Link>, run: seq<nat>) {
    && Chain(head, next, prev, run) && next.Keys == procs.Keys && prev.Keys == procs.Keys
    && (forall p :: p in run <==> p in procs && procs[p].state == Running)
    && (forall p :: p in procs && p !in run ==> next[p] == None && prev[p] == None)
  }

  ghost predicate BucketOk(procs: map<nat, Proc>, hash: nat -> nat, i: nat, l: seq<nat>) {
    forall p :: p in l <==> p in procs && procs[p].state == Sleeping && hash(procs[p].address) == i
  }

  ghost predicate SleepOk(procs: map<nat, Proc>, hash: nat -> nat, heads: map<nat, Link>, next: map<nat, Link>,
                          prev: map<nat, Link>, buckets: map<nat, seq<nat>>) {
    && heads.Keys == buckets.Keys && (forall a :: hash(a) in heads)
    && (forall i :: i in heads ==> Chain(heads[i], next, prev, buckets[i]) && BucketOk(procs, hash, i, buckets[i]))
  }

  /** A process has an address to be woken by exactly while it sleeps. */
  ghost predicate AddressOk(procs: map<nat, Proc>) {
    forall p :: p in procs ==> (procs[p].address != 0 <==> procs[p].state == Sleeping)
  }

  function Index(l: seq<nat>, p: nat): (i: nat)
    requires p in l
    ensures i < |l| && l[i] == p
  {
    if l[0] == p then 0 else 1 + Index(l[1..], p)
  }

  const AWAKE := Proc(Running, 0, false)

  // ---------------------------------------------------------------- the steps

  lemma CutMembers(l: seq<nat>, i: nat)
    requires Distinct(l) && i < |l|
    ensures forall p :: p in Cut(l, i) <==> p in l && p != l[i]
  {
    forall p | p in l && p != l[i] ensures p in Cut(l, i) {
      var j :| 0 <= j < |l| && l[j] == p;
      InCut(l, i, j);
    }
    forall p | p in Cut(l, i) ensures p in l && p != l[i] {
      var j :| 0 <= j < |Cut(l, i)| && Cut(l, i)[j] == p;
      assert p == l[if j < i then j else j + 1];
    }
  }

  /** Onto the run list. */
  lemma RunMore(procs: map<nat, Proc>, head: Link, next: map<nat, Link>, prev: map<nat, Link>, run: seq<nat>, p: nat,
                b: Proc)
    requires RunOk(procs, head, next, prev, run) && p in procs && p !in run && b.state == Running
    ensures var next', prev' := if head.Some? then next[p := head] else next, if head.Some? then prev[head.value := Some(p)] else prev;
      RunOk(procs[p := b], Some(p), next', prev', [p] + run)
  {
    PushChain(head, next, prev, run, p);
    assert next[p := None] == next && prev[p := None] == prev;
    if head.Some? { assert run[0] in run; }
    hide Chain;
  }

  /** Off the run list. */
  lemma RunLess(procs: map<nat, Proc>, head: Link, next: map<nat, Link>, prev: map<nat, Link>, run: seq<nat>, i: nat,
                b: Proc)
    requires RunOk(procs, head, next, prev, run) && i < |run| && b.state != Running
    ensures run[i] in procs && run[i] in next && run[i] in prev
    ensures var p := run[i];
      var h, n, v := if head == Some(p) then next[p] else head, NextWithout(next, prev, p), PrevWithout(next, prev, p);
      RunOk(procs[p := b], h, n[p := None], v[p := None], Cut(run, i))
  {
    var p := run[i];
    assert p in run;
    Neighbours(head, next, prev, run, i);
    ChainLess(head, next, prev, run, i);
    hide Chain, Cut;
  }

  lemma ChainLess(head: Link, next: map<nat, Link>, prev: map<nat, Link>, run: seq<nat>, i: nat)
    requires Chain(head, next, prev, run) && i < |run|
    ensures run[i] in next && run[i] in prev && forall q :: q in Cut(run, i) <==> q in run && q != run[i]
    ensures var p := run[i];
      var h, n, v := if head == Some(p) then next[p] else head, NextWithout(next, prev, p), PrevWithout(next, prev, p);
      Chain(h, n[p := None], v[p := None], Cut(run, i))
  {
    var p := run[i];
    UnlinkChain(head, next, prev, run, i);
    CutMembers(run, i);
    hide Chain, Cut;
    RunUntouched(if head == Some(p) then next[p] else head, NextWithout(next, prev, p), PrevWithout(next, prev, p), Cut(run, i), p);
  }

  lemma RunUntouched(head: Link, next: map<nat, Link>, prev: map<nat, Link>, l: seq<nat>, p: nat)
    requires Chain(head, next, prev, l) && p !in l
    ensures Chain(head, next[p := None], prev[p := None], l)
  {
    ChainIn(head, next, prev, l);
    Untouched(head, next, prev, next[p := None], prev[p := None], l);
  }

  /** Into a bucket, at its head. */
  lemma SleepMore(procs: map<nat, Proc>, hash: nat -> nat, heads: map<nat, Link>, next: map<nat, Link>,
                  prev: map<nat, Link>, buckets: map<nat, seq<nat>>, p: nat, b: Proc)
    requires SleepOk(procs, hash, heads, next, prev, buckets) && p in procs && procs[p].state != Sleeping && b.state == Sleeping
    ensures var i := hash(b.address); var h := heads[i];
      var prev' := prev[p := None];
      SleepOk(procs[p := b], hash, heads[i := Some(p)], next[p := h], if h.Some? then prev'[h.value := Some(p)] else prev', buckets[i := [p] + buckets[i]])
  {
    var i := hash(b.address);
    var h, l := heads[i], buckets[i];
    assert BucketOk(procs, hash, i, l);
    PushChain(h, next, prev, l, p);
    var next', prev0 := next[p := h], prev[p := None];
    var prev' := if h.Some? then prev0[h.value := Some(p)] else prev0;
    forall j | j in heads && j != i ensures Chain(heads[j], next', prev', buckets[j]) {
      assert BucketOk(procs, hash, j, buckets[j]);
      ChainIn(heads[j], next, prev, buckets[j]);
      if h.Some? { assert l[0] in l; }
      Untouched(heads[j], next, prev, next', prev', buckets[j]);
    }
    hide Chain;
    forall j | j in heads ensures BucketOk(procs[p := b], hash, j, if j == i then [p] + l else buckets[j]) {
      assert BucketOk(procs, hash, j, buckets[j]);
    }
  }

  /** Out of a bucket. */
  lemma SleepLess(procs: map<nat, Proc>, hash: nat -> nat, heads: map<nat, Link>, next: map<nat, Link>,
                  prev: map<nat, Link>, buckets: map<nat, seq<nat>>, i: nat, k: nat, b: Proc)
    requires SleepOk(procs, hash, heads, next, prev, buckets) && i in buckets && k < |buckets[i]| && b.state != Sleeping
    ensures var p := buckets[i][k];
      && p in procs && p in next && p in prev && (heads[i] == Some(p) <==> k == 0)
      && var h := if heads[i] == Some(p) then next[p] else heads[i];
      SleepOk(procs[p := b], hash, heads[i := h], NextWithout(next, prev, p), PrevWithout(next, prev, p), buckets[i := Cut(buckets[i], k)])
  {
    var l := buckets[i];
    var p := l[k];
    assert BucketOk(procs, hash, i, l) && p in l;
    UnlinkChain(heads[i], next, prev, l, k);
    CutMembers(l, k);
    Neighbours(heads[i], next, prev, l, k);
    var next', prev' := NextWithout(next, prev, p), PrevWithout(next, prev, p);
    forall j | j in heads && j != i ensures Chain(heads[j], next', prev', buckets[j]) {
      assert BucketOk(procs, hash, j, buckets[j]);
      ChainIn(heads[j], next, prev, buckets[j]);
      Untouched(heads[j], next, prev, next', prev', buckets[j]);
    }
    hide Chain;
    forall j | j in heads ensures BucketOk(procs[p := b], hash, j, if j == i then Cut(l, k) else buckets[j]) {
      assert BucketOk(procs, hash, j, buckets[j]);
    }
  }

  lemma Neighbours(head: Link, next: map<nat, Link>, prev: map<nat, Link>, l: seq<nat>, i: nat)
    requires Chain(head, next, prev, l) && i < |l|
    ensures l[i] in next && l[i] in prev
    ensures next[l[i]].Some? ==> next[l[i]].value in l
    ensures prev[l[i]].Some? ==> prev[l[i]].value in l
  {
    assert LinkedAt(next, prev, l, i);
  }

  class Processes {
    const hash: nat -> nat
    var procs: map<nat, Proc>
    var runHead: Link
    var nextRun: map<nat, Link>
    var prevRun: map<nat, Link>
    var heads: map<nat, Link>
    var nextSleep: map<nat, Link>
    var prevSleep: map<nat, Link>
    ghost var run: seq<nat>
    ghost var buckets: map<nat, seq<nat>>
    var locked: map<nat, bool>
    var wanted: map<nat, bool>
    ghost var holder: map<nat, Link>

    ghost predicate Valid()
      reads this
    {
      && RunOk(procs, runHead, nextRun, prevRun, run)
      && SleepOk(procs, hash, heads, nextSleep, prevSleep, buckets)
      && AddressOk(procs)
    }

    constructor (all: set<nat>, hash: nat -> nat, indices: set<nat>, resources: set<nat>)
      requires forall a :: hash(a) in indices
      ensures Valid() && LocksOk(procs, locked, wanted, holder) && World(procs, holder) == Start(all, resources)
    {
      this.hash := hash;
      procs := Start(all, resources).procs;
      runHead, run := None, [];
      nextRun := map p | p in all :: None;
      prevRun := map p | p in all :: None;
      heads := map i | i in indices :: None;
      buckets := map i | i in indices :: [];
      nextSleep, prevSleep := map[], map[];
      locked := map r | r in resources :: false;
      wanted := map r | r in resources :: false;
      holder := Start(all, resources).holder;
    }

    /** runnable: to the head of the run list, unless it is on it already. Whoever wakes a process
        has cleared its address and its flag. */
    method Runnable(p: nat)
      requires RunOk(procs, runHead, nextRun, prevRun, run) && p in procs
      modifies this`procs, this`runHead, this`nextRun, this`prevRun, this`run
      ensures RunOk(procs, runHead, nextRun, prevRun, run)
      ensures old(procs)[p].state == Running ==> run == old(run) && procs == old(procs)
      ensures old(procs)[p].state != Running ==> run == [p] + old(run) && procs == old(procs)[p := AWAKE]
    {
      if procs[p].state == Running { return; }
      RunMore(procs, runHead, nextRun, prevRun, run, p, AWAKE);
      hide RunOk;
      if runHead.Some? {
        nextRun := nextRun[p := runHead];
        prevRun := prevRun[runHead.value := Some(p)];
      }
      runHead := Some(p);
      procs := procs[p := AWAKE];
      run := [p] + run;
    }

    /** not_runnable. */
    method NotRunnable(p: nat, b: Proc)
      requires RunOk(procs, runHead, nextRun, prevRun, run) && p in procs && procs[p].state == Running && b.state != Running
      modifies this`procs, this`runHead, this`nextRun, this`prevRun, this`run
      ensures RunOk(procs, runHead, nextRun, prevRun, run)
      ensures p in old(run) && run == Cut(old(run), Index(old(run), p)) && procs == old(procs)[p := b]
    {
      ghost var i := Index(run, p);
      RunLess(procs, runHead, nextRun, prevRun, run, i, b);
      Neighbours(runHead, nextRun, prevRun, run, i);
      InMaps(procs, runHead, nextRun, prevRun, run, i);
      hide RunOk, Chain;
      if nextRun[p].Some? { prevRun := prevRun[nextRun[p].value := prevRun[p]]; }
      if prevRun[p].Some? { nextRun := nextRun[prevRun[p].value := nextRun[p]]; }
      if runHead == Some(p) { runHead := nextRun[p]; }
      prevRun := prevRun[p := None];
      nextRun := nextRun[p := None];
      procs := procs[p := b];
      run := Cut(run, i);
    }

    /** The part of sleep up to the switch to another process; an interruptible sleep does not
        begin when a signal is pending. */
    method GoToSleep(p: nat, a: nat, interruptible: bool, signal: bool) returns (slept: bool)
      requires Valid() && p in procs && procs[p].state == Running && a != 0
      modifies this`procs, this`runHead, this`nextRun, this`prevRun, this`run, this`heads, this`nextSleep, this`prevSleep, this`buckets
      ensures Valid() && slept == !(interruptible && signal)
      ensures procs == if slept then old(procs)[p := Proc(Sleeping, a, !interruptible)] else old(procs)
      ensures slept ==> hash(a) in old(buckets) && buckets == old(buckets)[hash(a) := [p] + old(buckets)[hash(a)]]
    {
      hide SleepOk, RunOk, AddressOk, Cut, Index;
      if interruptible && signal { return false; }
      var b := Proc(Sleeping, a, !interruptible);
      var i := hash(a);
      BucketOf(procs, hash, heads, nextSleep, prevSleep, buckets, i);
      SleepMore(procs, hash, heads, nextSleep, prevSleep, buckets, p, b);
      AddressKept(procs, p, b);
      var h := heads[i];
      nextSleep := nextSleep[p := h];
      prevSleep := prevSleep[p := None];
      if h.Some? { prevSleep := prevSleep[h.value := Some(p)]; }
      heads := heads[i := Some(p)];
      buckets := buckets[i := [p] + buckets[i]];
      NotRunnable(p, b);
      return true;
    }

    /** A sleeper found at place `k` of bucket `i` is made runnable and unlinked. */
    method WakeAt(i: nat, ghost k: nat, x: nat, atHead: bool)
      requires Valid() && i in buckets && k < |buckets[i]| && buckets[i][k] == x && atHead == (k == 0)
      modifies this`procs, this`runHead, this`nextRun, this`prevRun, this`run, this`heads, this`nextSleep, this`prevSleep, this`buckets
      ensures Valid() && procs == old(procs)[x := AWAKE] && run == [x] + old(run)
      ensures buckets == old(buckets)[i := Cut(old(buckets)[i], k)]
    {
      SleepLess(procs, hash, heads, nextSleep, prevSleep, buckets, i, k, AWAKE);
      assert BucketOk(procs, hash, i, buckets[i]);
      Neighbours(heads[i], nextSleep, prevSleep, buckets[i], k);
      NoSelf(heads[i], nextSleep, prevSleep, buckets[i], k);
      AddressKept(procs, x, AWAKE);
      hide SleepOk, RunOk, BucketOk, Chain, AddressOk, Cut;
      Runnable(x);
      Unlink(i, x, atHead);
      buckets := buckets[i := Cut(buckets[i], k)];
    }

    method Unlink(i: nat, x: nat, atHead: bool)
      requires i in heads && x in nextSleep && x in prevSleep && nextSleep[x] != Some(x) && prevSleep[x] != Some(x)
      requires atHead <==> heads[i] == Some(x)
      modifies this`heads, this`nextSleep, this`prevSleep
      ensures heads == old(heads)[i := if old(heads)[i] == Some(x) then old(nextSleep)[x] else old(heads)[i]]
      ensures nextSleep == NextWithout(old(nextSleep), old(prevSleep), x)
      ensures prevSleep == PrevWithout(old(nextSleep), old(prevSleep), x)
    {
      if nextSleep[x].Some? { prevSleep := prevSleep[nextSleep[x].value := prevSleep[x]]; }
      if prevSleep[x].Some? { nextSleep := nextSleep[prevSleep[x].value := nextSleep[x]]; }
      if atHead { heads := heads[i := nextSleep[x]]; } else { assert heads[i := heads[i]] == heads; }
    }

    /** What the cursor of wakeup points at. */
    function Deref(h: Cursor, i: nat): Link
      requires i in heads && (h.After? ==> h.p in nextSleep)
      reads this
    {
      match h
      case Head => heads[i]
      case After(q) => nextSleep[q]
    }

    /** wakeup: all the sleepers on `a`, and nobody else. */
    method Wakeup(a: nat)
      requires Valid()
      modifies this`procs, this`runHead, this`nextRun, this`prevRun, this`run, this`heads, this`nextSleep, this`prevSleep, this`buckets
      ensures Valid() && Woken(old(procs), procs, a, [])
      ensures hash(a) in old(buckets) && run == Called(old(procs), old(buckets)[hash(a)], a) + old(run)
    {
      hide RunOk, SleepOk, AddressOk, Chain, BucketOk, Woken, Cut, Called;
      var i := hash(a);
      var h := Head;
      BucketOf(procs, hash, heads, nextSleep, prevSleep, buckets, i);
      ghost var done: seq<nat>, rest := [], buckets[i];
      assert done + rest == rest;
      NoneWoken(procs, hash, a, rest);
      CursorAt(heads[i], nextSleep, prevSleep, done, rest);
      while Deref(h, i) != None
        invariant Valid() && i == hash(a) && i in heads && i in buckets && buckets[i] == done + rest
        invariant h == CursorOf(done) && (h.After? ==> h.p in nextSleep) && Deref(h, i) == First(rest)
        invariant Woken(old(procs), procs, a, rest)
        invariant Called(old(procs), rest, a) + run == Called(old(procs), old(buckets)[i], a) + old(run)
        decreases |rest|
      {
        var x := Deref(h, i).value;
        BucketOf(procs, hash, heads, nextSleep, prevSleep, buckets, i);
        CursorNext(done, rest);
        Sleeper(procs, hash, heads[i], nextSleep, prevSleep, done, rest, i);
        ghost var was, ran := procs, run;
        CalledNext(old(procs), procs, a, rest, ran);
        if procs[x].address == a {
          WakeAt(i, |done|, x, h == Head);
          WokenMore(old(procs), was, a, rest);
          rest := rest[1..];
        } else {
          WokenSkip(old(procs), procs, a, rest);
          done, rest := done + [x], rest[1..];
          h := After(x);
        }
        BucketOf(procs, hash, heads, nextSleep, prevSleep, buckets, i);
        CursorAt(heads[i], nextSleep, prevSleep, done, rest);
      }
      CalledNone(old(procs), a, run);
    }

    /** wakeup_proc: one process, unless it sleeps uninterruptibly. */
    method WakeupProc(p: nat)
      requires Valid() && p in procs
      modifies this`procs, this`runHead, this`nextRun, this`prevRun, this`run, this`heads, this`nextSleep, this`prevSleep, this`buckets
      ensures Valid()
      ensures procs == if old(procs)[p].state in {Sleeping, Stopped} && !old(procs)[p].pinned then old(procs)[p := AWAKE] else old(procs)
    {
      if procs[p].state != Sleeping && procs[p].state != Stopped { return; }
      if procs[p].pinned { return; }
      if procs[p].address != 0 {
        var i := hash(procs[p].address);
        assert BucketOk(procs, hash, i, buckets[i]);
        ghost var k := Index(buckets[i], p);
        FirstIff(heads[i], nextSleep, prevSleep, buckets[i], k);
        hide RunOk, SleepOk, AddressOk;
        WakeAt(i, k, p, heads[i] == Some(p));
      } else {
        StoppedKept(procs, hash, heads, nextSleep, prevSleep, buckets, p, AWAKE);
        AddressKept(procs, p, AWAKE);
        hide RunOk, SleepOk, AddressOk;
        Runnable(p);
      }
    }

    /** The current process stops, as on a stop signal, or ends. */
    method Leave(p: nat, ended: bool)
      requires Valid() && p in procs && procs[p].state == Running
      modifies this`procs, this`runHead, this`nextRun, this`prevRun, this`run
      ensures Valid() && procs == old(procs)[p := Proc(if ended then Zombie else Stopped, 0, false)]
    {
      var b := Proc(if ended then Zombie else Stopped, 0, false);
      StoppedKept(procs, hash, heads, nextSleep, prevSleep, buckets, p, b);
      AddressKept(procs, p, b);
      hide RunOk, SleepOk, AddressOk, Cut;
      NotRunnable(p, b);
    }

    /** One turn of lock_resource: the resource is taken, or its holder is waited for. */
    method TryLock(p: nat, r: nat) returns (got: bool)
      requires Valid() && LocksOk(procs, locked, wanted, holder) && r in holder && r != 0 && p in procs && procs[p].state == Running
      modifies this
      ensures Valid() && LocksOk(procs, locked, wanted, holder) && procs.Keys == old(procs).Keys
      ensures got <==> old(holder)[r] == None
      ensures holder == if got then old(holder)[r := Some(p)] else old(holder)
      ensures procs == if got then old(procs) else old(procs)[p := Proc(Sleeping, r, true)]
    {
      LockIn(procs, locked, wanted, holder, r);
      LockWaits(procs, locked, wanted, holder, r, p);
      LockTaken(procs, locked, wanted, holder, r, p);
      hide RunOk, SleepOk, AddressOk, LocksOk;
      if locked[r] {
        wanted := wanted[r := true];
        var slept := GoToSleep(p, r, false, false);
        return false;
      }
      locked := locked[r := true];
      holder := holder[r := Some(p)];
      return true;
    }

    /** unlock_resource: everyone who waits for it is woken. */
    method Unlock(r: nat)
      requires Valid() && LocksOk(procs, locked, wanted, holder) && r in holder
      modifies this
      ensures Valid() && LocksOk(procs, locked, wanted, holder) && procs.Keys == old(procs).Keys
      ensures holder == old(holder)[r := None]
      ensures Woken(old(procs), procs, r, [])
    {
      LockIn(procs, locked, wanted, holder, r);
      if !wanted[r] { LockFreed(procs, locked, wanted, holder, r); }
      hide RunOk, SleepOk, AddressOk, LocksOk;
      locked := locked[r := false];
      holder := holder[r := None];
      if wanted[r] {
        wanted := wanted[r := false];
        Wakeup(r);
        LockGone(old(procs), procs, old(locked), old(wanted), old(holder), r);
      }
    }
  }

  lemma CursorNext(done: seq<nat>, rest: seq<nat>)
    requires rest != []
    ensures Cut(done + rest, |done|) == done + rest[1..]
    ensures (done + [rest[0]]) + rest[1..] == done + rest
  {
  }

  lemma BucketOf(procs: map<nat, Proc>, hash: nat -> nat, heads: map<nat, Link>, next: map<nat, Link>,
                 prev: map<nat, Link>, buckets: map<nat, seq<nat>>, i: nat)
    requires SleepOk(procs, hash, heads, next, prev, buckets)
    ensures (forall a :: hash(a) in heads) && heads.Keys == buckets.Keys
    ensures i in heads ==> Chain(heads[i], next, prev, buckets[i]) && BucketOk(procs, hash, i, buckets[i])
  {
  }

  lemma FirstIff(head: Link, next: map<nat, Link>, prev: map<nat, Link>, l: seq<nat>, k: nat)
    requires Chain(head, next, prev, l) && k < |l|
    ensures head == Some(l[k]) <==> k == 0
  {
  }

  lemma StoppedKept(procs: map<nat, Proc>, hash: nat -> nat, heads: map<nat, Link>, next: map<nat, Link>,
                    prev: map<nat, Link>, buckets: map<nat, seq<nat>>, p: nat, b: Proc)
    requires SleepOk(procs, hash, heads, next, prev, buckets) && p in procs && procs[p].state != Sleeping && b.state != Sleeping
    ensures SleepOk(procs[p := b], hash, heads, next, prev, buckets)
  {
    hide Chain;
    forall i | i in heads ensures BucketOk(procs[p := b], hash, i, buckets[i]) { assert BucketOk(procs, hash, i, buckets[i]); }
  }

  predicate On(b: Proc, a: nat) {
    b.state == Sleeping && b.address == a
  }

  /** All who slept on `a` are awake, but those still to come; all others are as they were. */
  ghost predicate Woken(from: map<nat, Proc>, to: map<nat, Proc>, a: nat, rest: seq<nat>) {
    && to.Keys == from.Keys
    && forall p :: p in from ==> to[p] == if On(from[p], a) && p !in rest then AWAKE else from[p]
  }

  lemma NoneWoken(procs: map<nat, Proc>, hash: nat -> nat, a: nat, l: seq<nat>)
    requires BucketOk(procs, hash, hash(a), l)
    ensures Woken(procs, procs, a, l)
  {
  }

  lemma WokenMore(from: map<nat, Proc>, mid: map<nat, Proc>, a: nat, rest: seq<nat>)
    requires Woken(from, mid, a, rest) && rest != [] && rest[0] in mid && On(mid[rest[0]], a) && rest[0] !in rest[1..]
    ensures Woken(from, mid[rest[0] := AWAKE], a, rest[1..])
  {
  }

  lemma WokenSkip(from: map<nat, Proc>, to: map<nat, Proc>, a: nat, rest: seq<nat>)
    requires Woken(from, to, a, rest) && rest != [] && rest[0] in to && to[rest[0]].address != a
    ensures Woken(from, to, a, rest[1..])
  {
  }

  /** The sleepers on `a` in a bucket; the last of them is woken last, and is then first to run. */
  function Called(procs: map<nat, Proc>, l: seq<nat>, a: nat): seq<nat> {
    if l == [] then []
    else Called(procs, l[1..], a) + if l[0] in procs && procs[l[0]].address == a then [l[0]] else []
  }

  lemma CalledNext(from: map<nat, Proc>, mid: map<nat, Proc>, a: nat, rest: seq<nat>, run: seq<nat>)
    requires Woken(from, mid, a, rest) && rest != [] && rest[0] in mid
    ensures var more := if mid[rest[0]].address == a then [rest[0]] + run else run;
      Called(from, rest[1..], a) + more == Called(from, rest, a) + run
  {
    assert mid[rest[0]] == from[rest[0]];
  }

  lemma CalledNone(procs: map<nat, Proc>, a: nat, run: seq<nat>)
    ensures Called(procs, [], a) + run == run
  {
  }

  lemma Sleeper(procs: map<nat, Proc>, hash: nat -> nat, head: Link, next: map<nat, Link>, prev: map<nat, Link>,
                done: seq<nat>, rest: seq<nat>, i: nat)
    requires Chain(head, next, prev, done + rest) && BucketOk(procs, hash, i, done + rest) && rest != []
    ensures (done + rest)[|done|] == rest[0] && rest[0] !in rest[1..] && rest[0] in procs && procs[rest[0]].state == Sleeping
  {
    var l := done + rest;
    assert l[|done|] in l;
    forall j | 0 < j < |rest| ensures rest[j] != rest[0] { assert l[|done| + j] == rest[j]; }
  }

  // ---------------------------------------------------------------- locks

  /** A resource is locked exactly while somebody holds it, and whoever sleeps on one sleeps
      uninterruptibly on one that is both locked and wanted: its holder will wake the sleeper. */
  ghost predicate LocksOk(procs: map<nat, Proc>, locked: map<nat, bool>, wanted: map<nat, bool>,
                          holder: map<nat, Link>) {
    && locked.Keys == wanted.Keys == holder.Keys
    && (forall r :: r in holder ==> (locked[r] <==> holder[r].Some?))
    && (forall p :: p in procs && procs[p].state == Sleeping && procs[p].address in holder ==>
          procs[p].pinned && locked[procs[p].address] && wanted[procs[p].address])
  }

  lemma LockIn(procs: map<nat, Proc>, locked: map<nat, bool>, wanted: map<nat, bool>, holder: map<nat, Link>, r: nat)
    requires LocksOk(procs, locked, wanted, holder) && r in holder
    ensures r in locked && r in wanted && (locked[r] <==> holder[r].Some?)
  {
  }

  lemma LockWaits(procs: map<nat, Proc>, locked: map<nat, bool>, wanted: map<nat, bool>, holder: map<nat, Link>,
                  r: nat, p: nat)
    requires LocksOk(procs, locked, wanted, holder) && r in holder
    ensures locked[r] ==> LocksOk(procs[p := Proc(Sleeping, r, true)], locked, wanted[r := true], holder)
  {
  }

  lemma LockTaken(procs: map<nat, Proc>, locked: map<nat, bool>, wanted: map<nat, bool>, holder: map<nat, Link>,
                  r: nat, p: nat)
    requires LocksOk(procs, locked, wanted, holder) && r in holder
    ensures LocksOk(procs, locked[r := true], wanted, holder[r := Some(p)])
  {
  }

  /** Nobody can be asleep on a resource that is not wanted. */
  lemma LockFreed(procs: map<nat, Proc>, locked: map<nat, bool>, wanted: map<nat, bool>, holder: map<nat, Link>, r: nat)
    requires LocksOk(procs, locked, wanted, holder) && r in holder && !wanted[r]
    ensures LocksOk(procs, locked[r := false], wanted, holder[r := None])
    ensures forall q :: q in procs ==> !On(procs[q], r)
  {
  }

  lemma LockGone(from: map<nat, Proc>, to: map<nat, Proc>, locked: map<nat, bool>, wanted: map<nat, bool>,
                 holder: map<nat, Link>, r: nat)
    requires LocksOk(from, locked, wanted, holder) && r in holder && Woken(from, to, r, [])
    ensures LocksOk(to, locked[r := false], wanted[r := false], holder[r := None])
  {
  }

  lemma AddressKept(procs: map<nat, Proc>, p: nat, b: Proc)
    requires AddressOk(procs) && (b.address != 0 <==> b.state == Sleeping)
    ensures AddressOk(procs[p := b])
  {
  }

  lemma InMaps(procs: map<nat, Proc>, head: Link, next: map<nat, Link>, prev: map<nat, Link>, run: seq<nat>, i: nat)
    requires RunOk(procs, head, next, prev, run) && i < |run|
    ensures next.Keys == prev.Keys
    ensures run[i] in next && next[run[i]] != Some(run[i]) && prev[run[i]] != Some(run[i])
  {
    NoSelf(head, next, prev, run, i);
  }

  lemma NoSelf(head: Link, next: map<nat, Link>, prev: map<nat, Link>, l: seq<nat>, i: nat)
    requires Chain(head, next, prev, l) && i < |l|
    ensures l[i] in next && l[i] in prev && next[l[i]] != Some(l[i]) && prev[l[i]] != Some(l[i])
  {
    assert LinkedAt(next, prev, l, i);
  }

  // ---------------------------------------------------------------- every schedule

  datatype Op =
    | Lock(p: nat, r: nat)
    | Release(p: nat, r: nat)
    | SleepOn(p: nat, a: nat, interruptible: bool, signal: bool)
    | Wake(a: nat)
    | Signal(p: nat)
    | Halt(p: nat, ended: bool)

  /** What there is apart from lists and flags: the processes, and who holds each resource. */
  datatype World = World(procs: map<nat, Proc>, holder: map<nat, Link>)

  function Start(all: set<nat>, resources: set<nat>): World {
    World(map p | p in all :: Proc(Stopped, 0, false), map r | r in resources :: None)
  }

  predicate Runs(w: World, p: nat) {
    p in w.procs && w.procs[p].state == Running
  }

  function WokenOn(procs: map<nat, Proc>, a: nat): map<nat, Proc> {
    map p | p in procs :: if On(procs[p], a) then AWAKE else procs[p]
  }

  /** One step of a process that can run, or of something that wakes processes. */
  function Next(w: World, op: Op): World {
    match op
    case Lock(p, r) =>
      if !Runs(w, p) || r !in w.holder then w
      else if w.holder[r] == None then w.(holder := w.holder[r := Some(p)])
      else w.(procs := w.procs[p := Proc(Sleeping, r, true)])
    case Release(p, r) =>
      if Runs(w, p) && r in w.holder && w.holder[r] == Some(p) then World(WokenOn(w.procs, r), w.holder[r := None]) else w
    case SleepOn(p, a, interruptible, signal) =>
      if Runs(w, p) && a != 0 && a !in w.holder && !(interruptible && signal)
      then w.(procs := w.procs[p := Proc(Sleeping, a, !interruptible)]) else w
    case Wake(a) => w.(procs := WokenOn(w.procs, a))
    case Signal(p) =>
      if p in w.procs && w.procs[p].state in {Sleeping, Stopped} && !w.procs[p].pinned then w.(procs := w.procs[p := AWAKE]) else w
    case Halt(p, ended) =>
      if Runs(w, p) then w.(procs := w.procs[p := Proc(if ended then Zombie else Stopped, 0, false)]) else w
  }

  function Final(w: World, ops: seq<Op>): World {
    if ops == [] then w else Next(Final(w, ops[..|ops| - 1]), ops[|ops| - 1])
  }

  // ---------------------------------------------------------------- what holds in every run

  /** A resource stays with its holder until the holder releases it. */
  lemma KeepsIt(w: World, op: Op, p: nat, r: nat)
    requires r in w.holder && w.holder[r] == Some(p)
    ensures r in Next(w, op).holder
    ensures Next(w, op).holder[r] == Some(p) <==> !(op == Release(p, r) && Runs(w, p))
  {
  }

  /** Who sleeps goes on sleeping until its address is woken, by a wakeup or because what it waits for is released,
      or until a signal that may interrupt it. */
  lemma SleepsUntil(w: World, op: Op, p: nat)
    requires p in w.procs && w.procs[p].state == Sleeping
    ensures p in Next(w, op).procs
    ensures var a := w.procs[p].address;
      Next(w, op).procs[p] ==
        if op == Wake(a) || (op == Signal(p) && !w.procs[p].pinned)
           || (op.Release? && op.r == a && Runs(w, op.p) && a in w.holder && w.holder[a] == Some(op.p))
        then AWAKE else w.procs[p]
  {
  }

  /** Who runs stops running only by what it does itself: it waits for a resource that is held, goes to sleep, stops
      or ends. */
  lemma RunsUntil(w: World, op: Op, p: nat)
    requires Runs(w, p)
    ensures p in Next(w, op).procs
    ensures var b := Next(w, op).procs[p];
      if op.Lock? && op.p == p && op.r in w.holder && w.holder[op.r].Some? then b == Proc(Sleeping, op.r, true)
      else if op.SleepOn? && op.p == p && op.a != 0 && op.a !in w.holder && !(op.interruptible && op.signal)
      then b == Proc(Sleeping, op.a, !op.interruptible)
      else if op.Halt? && op.p == p then b == Proc(if op.ended then Zombie else Stopped, 0, false)
      else b == w.procs[p]
  {
  }

  /** Who has stopped goes on at a signal, and who has ended never. */
  lemma StoppedUntil(w: World, op: Op, p: nat)
    requires p in w.procs && w.procs[p].state in {Stopped, Zombie} && !w.procs[p].pinned
    ensures p in Next(w, op).procs &&
      Next(w, op).procs[p] == if w.procs[p].state == Stopped && op == Signal(p) then AWAKE else w.procs[p]
  {
  }

  predicate Takes(w: World, op: Op, p: nat, r: nat) {
    op == Lock(p, r) && Runs(w, p) && r in w.holder && w.holder[r] == None
  }

  lemma {:induction false} StillHeld(w: World, ops: seq<Op>, i: nat, n: nat, p: nat, r: nat)
    requires i < n <= |ops| && Takes(Final(w, ops[..i]), ops[i], p, r)
    requires forall k :: i < k < n ==> !(ops[k] == Release(p, r) && Runs(Final(w, ops[..k]), p))
    ensures r in Final(w, ops[..n]).holder && Final(w, ops[..n]).holder[r] == Some(p)
  {
    assert ops[..n][..n - 1] == ops[..n - 1];
    if i < n - 1 {
      StillHeld(w, ops, i, n - 1, p, r);
      KeepsIt(Final(w, ops[..n - 1]), ops[n - 1], p, r);
    }
  }

  /** Mutual exclusion: between two takings of a resource the first taker has released it. */
  lemma Exclusive(w: World, ops: seq<Op>, i: nat, j: nat, p: nat, q: nat, r: nat) returns (k: nat)
    requires i < j < |ops| && Takes(Final(w, ops[..i]), ops[i], p, r) && Takes(Final(w, ops[..j]), ops[j], q, r)
    ensures i < k < j && ops[k] == Release(p, r) && Runs(Final(w, ops[..k]), p)
  {
    if forall k :: i < k < j ==> !(ops[k] == Release(p, r) && Runs(Final(w, ops[..k]), p)) {
      StillHeld(w, ops, i, j, p, r);
      k := i;
    } else {
      k :| i < k < j && ops[k] == Release(p, r) && Runs(Final(w, ops[..k]), p);
    }
  }

  /** Whoever sleeps on a resource cannot be interrupted, and the resource is held. */
  ghost predicate Awaited(w: World) {
    forall p :: p in w.procs && w.procs[p].state == Sleeping && w.procs[p].address in w.holder ==>
      w.procs[p].pinned && w.holder[w.procs[p].address].Some?
  }

  /** No lost wakeup: at every moment of every run nobody is asleep on a free resource. */
  lemma {:induction false} NoneStranded(all: set<nat>, resources: set<nat>, ops: seq<Op>)
    requires 0 !in resources
    ensures Awaited(Final(Start(all, resources), ops)) && Final(Start(all, resources), ops).holder.Keys == resources
  {
    if ops != [] {
      NoneStranded(all, resources, ops[..|ops| - 1]);
      AwaitedNext(Final(Start(all, resources), ops[..|ops| - 1]), ops[|ops| - 1]);
    }
  }

  lemma AwaitedNext(w: World, op: Op)
    requires Awaited(w)
    ensures Awaited(Next(w, op)) && Next(w, op).holder.Keys == w.holder.Keys
  {
  }

  // ---------------------------------------------------------------- the lists do the same

  lemma Elsewhere(procs: map<nat, Proc>, locked: map<nat, bool>, wanted: map<nat, bool>, holder: map<nat, Link>,
                  p: nat, b: Proc)
    requires LocksOk(procs, locked, wanted, holder) && (b.state == Sleeping ==> b.address !in holder)
    ensures LocksOk(procs[p := b], locked, wanted, holder)
  {
  }

  lemma StillLocked(from: map<nat, Proc>, to: map<nat, Proc>, locked: map<nat, bool>, wanted: map<nat, bool>,
                    holder: map<nat, Link>, a: nat)
    requires LocksOk(from, locked, wanted, holder) && Woken(from, to, a, [])
    ensures LocksOk(to, locked, wanted, holder)
  {
  }

  lemma AllWoken(from: map<nat, Proc>, to: map<nat, Proc>, a: nat)
    requires Woken(from, to, a, [])
    ensures to == WokenOn(from, a)
  {
  }

  /** Whatever the processes do and whenever they are switched, the run list, the sleep buckets and
      the locks with their two flags do what is said of the world above. */
  method Run(all: set<nat>, hash: nat -> nat, indices: set<nat>, resources: set<nat>, ops: seq<Op>)
    returns (procs: map<nat, Proc>, locked: map<nat, bool>)
    requires (forall a :: hash(a) in indices) && 0 !in resources
    ensures procs == Final(Start(all, resources), ops).procs && locked.Keys == resources
    ensures forall r :: r in resources ==> (locked[r] <==> HeldIn(Final(Start(all, resources), ops), r))
  {
    hide RunOk, SleepOk, AddressOk, LocksOk, Start, Next;
    var k := new Processes(all, hash, indices, resources);
    ghost var w := Start(all, resources);
    StartHolder(all, resources);
    var held := map r | r in resources :: None;
    for i := 0 to |ops|
      invariant fresh(k) && k.Valid() && LocksOk(k.procs, k.locked, k.wanted, k.holder) && k.holder.Keys == resources
      invariant World(k.procs, k.holder) == Final(w, ops[..i]) && held == k.holder
    {
      assert ops[..i + 1][..i] == ops[..i];
      held := Step(k, ops[i], held);
    }
    assert ops[..|ops|] == ops;
    procs, locked := k.procs, k.locked;
    forall r | r in resources ensures r in locked && (locked[r] <==> HeldIn(Final(w, ops), r)) {
      LockIn(k.procs, k.locked, k.wanted, k.holder, r);
    }
    LockKeys(k.procs, k.locked, k.wanted, k.holder);
  }

  predicate HeldIn(w: World, r: nat) {
    r in w.holder && w.holder[r].Some?
  }

  lemma LockKeys(procs: map<nat, Proc>, locked: map<nat, bool>, wanted: map<nat, bool>, holder: map<nat, Link>)
    requires LocksOk(procs, locked, wanted, holder)
    ensures locked.Keys == holder.Keys
  {
  }

  lemma StartHolder(all: set<nat>, resources: set<nat>)
    ensures Start(all, resources).holder == map r | r in resources :: None
  {
  }

  /** One step of one process, if it is able to take it; `held` is what the processes know. */
  method Step(k: Processes, op: Op, held: map<nat, Link>) returns (now: map<nat, Link>)
    requires k.Valid() && LocksOk(k.procs, k.locked, k.wanted, k.holder) && 0 !in k.holder && held == k.holder
    modifies k
    ensures k.Valid() && LocksOk(k.procs, k.locked, k.wanted, k.holder)
    ensures World(k.procs, k.holder) == Next(old(World(k.procs, k.holder)), op) && now == k.holder
    ensures k.holder.Keys == old(k.holder).Keys
  {
    hide RunOk, SleepOk, AddressOk, LocksOk, Woken, WokenOn;
    now := held;
    match op {
      case Lock(p, r) =>
        if p in k.procs && k.procs[p].state == Running && r in held {
          var got := k.TryLock(p, r);
          if got { now := held[r := Some(p)]; }
        }
      case Release(p, r) =>
        if p in k.procs && k.procs[p].state == Running && r in held && held[r] == Some(p) {
          ghost var was := k.procs;
          k.Unlock(r);
          AllWoken(was, k.procs, r);
          now := held[r := None];
        }
      case _ => StepOther(k, op, held);
    }
  }

  method StepOther(k: Processes, op: Op, held: map<nat, Link>)
    requires k.Valid() && LocksOk(k.procs, k.locked, k.wanted, k.holder) && held == k.holder && !op.Lock? && !op.Release?
    modifies k
    ensures k.Valid() && LocksOk(k.procs, k.locked, k.wanted, k.holder) && k.holder == old(k.holder)
    ensures World(k.procs, k.holder) == Next(old(World(k.procs, k.holder)), op)
  {
    hide RunOk, SleepOk, AddressOk, LocksOk, Woken, WokenOn;
    ghost var was := k.procs;
    match op {
      case SleepOn(p, a, interruptible, signal) =>
        if p in k.procs && k.procs[p].state == Running && a != 0 && a !in held {
          var slept := k.GoToSleep(p, a, interruptible, signal);
          Elsewhere(was, k.locked, k.wanted, k.holder, p, Proc(Sleeping, a, !interruptible));
        }
      case Wake(a) =>
        k.Wakeup(a);
        StillLocked(was, k.procs, k.locked, k.wanted, k.holder, a);
        AllWoken(was, k.procs, a);
      case Signal(p) =>
        if p in k.procs {
          k.WakeupProc(p);
          Elsewhere(was, k.locked, k.wanted, k.holder, p, AWAKE);
        }
      case Halt(p, ended) =>
        if p in k.procs && k.procs[p].state == Running {
          k.Leave(p, ended);
          Elsewhere(was, k.locked, k.wanted, k.holder, p, Proc(if ended then Zombie else Stopped, 0, false));
        }
    }
  }
}
