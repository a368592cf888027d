/**
 The scheduler: every process that can run has a number of ticks left; the one with most runs until
 they are used up, and when all are used up everyone gets its priority in ticks again.
 */
module Sched {
  import opened Lists
  import opened Wrappers

  /** The process proc_table[IDLE], which is on no list. */
  const IDLE: nat := 0

  class Scheduler {
    /** The run list, and each process's cpu_count and priority. */
    var run: seq<nat>
    var count: map<nat, nat>
    var priority: map<nat, nat>

    ghost predicate Valid()
      reads this
    {
      && NoDup(run) && IDLE !in run
      && forall p :: p in run ==> p in count && p in priority
    }

    constructor (run: seq<nat>, priority: map<nat, nat>)
      requires NoDup(run) && IDLE !in run && forall p :: p in run ==> p in priority
      ensures Valid() && this.run == run && this.priority == priority && AllSpent(run, count)
    {
      this.run, this.priority := run, priority;
      count := map p | p in run :: 0;
    }

    /** One pass over the run list: who has most ticks left, and of those who is first on the list. */
    method Select() returns (best: int, selected: nat)
      requires Valid()
      ensures run == [] ==> best == -1 && selected == IDLE
      ensures run != [] ==> Leads(run, count, selected) && best == count[selected]
    {
      best, selected := -1, IDLE;
      var i := 0;
      ghost var k := 0;
      while i < |run|
        invariant 0 <= i <= |run|
        invariant i == 0 ==> best == -1 && selected == IDLE
        invariant i > 0 ==> k < i && selected == run[k] && selected in run && best == count[selected]
        invariant k <= i && forall j :: 0 <= j < i ==> count[run[j]] <= best && (j < k ==> count[run[j]] < best)
      {
        assert run[i] in run;
        if count[run[i]] > best { best, selected, k := count[run[i]], run[i], i; }
        i := i + 1;
      }
    }

    /** Everyone on the run list gets its priority in ticks. */
    method Recharge()
      requires Valid()
      modifies this`count
      ensures Valid() && count == Recharged(run, old(count), priority)
    {
      count := count + (map p | p in run :: priority[p]);
    }

    /** do_sched: the process to run next. Without a process that has, or would get, a tick it
        would go round for ever; then, and only then, it says so here. */
    method DoSched(current: nat) returns (next: Option<nat>)
      requires Valid()
      modifies this`count
      ensures Valid() && count == if AllSpent(run, old(count)) then Recharged(run, old(count), priority) else old(count)
      ensures next == None <==> run != [] && forall p :: p in run ==> old(count)[p] == 0 && priority[p] == 0
      ensures next.Some? ==> Chosen(run, count, current in run && old(count)[current] > 0, current, next.value)
    {
      if current in run && count[current] > 0 { return Some(current); }
      var best, selected := Select();
      if best != 0 {
        assert run == [] ==> Recharged(run, count, priority) == count;
        return Some(selected);
      }
      Recharge();
      best, selected := Select();
      if best != 0 { return Some(selected); }
      assert forall p :: p in run ==> count[p] == priority[p];
      return None;
    }

    /** The quantum part of a timer tick. */
    method Tick(current: nat)
      requires Valid() && current in run
      modifies this`count
      ensures Valid() && count == old(count)[current := Less(old(count)[current])]
    {
      count := count[current := if count[current] > 0 then count[current] - 1 else 0];
    }
  }

  function Less(n: nat): nat {
    if n > 0 then n - 1 else 0
  }

  ghost predicate AllSpent(run: seq<nat>, count: map<nat, nat>) {
    forall p :: p in run ==> p in count && count[p] == 0
  }

  function Recharged(run: seq<nat>, count: map<nat, nat>, priority: map<nat, nat>): map<nat, nat>
    requires forall p :: p in run ==> p in priority
  {
    count + (map p | p in run :: priority[p])
  }

  /** Where a process is on the run list. */
  function Place(run: seq<nat>, p: nat): (i: nat)
    requires p in run
    ensures i < |run| && run[i] == p && forall j :: 0 <= j < i ==> run[j] != p
  {
    if run[0] == p then 0 else 1 + Place(run[1..], p)
  }

  /** More ticks, or as many and earlier on the run list. */
  ghost predicate Ahead(run: seq<nat>, ticks: map<nat, nat>, p: nat, q: nat)
    requires p in run && q in run && p in ticks && q in ticks
  {
    ticks[p] > ticks[q] || (ticks[p] == ticks[q] && Place(run, p) < Place(run, q))
  }

  ghost predicate Leads(run: seq<nat>, ticks: map<nat, nat>, p: nat)
    requires forall q :: q in run ==> q in ticks
  {
    p in run && forall q :: q in run && q != p ==> Ahead(run, ticks, p, q)
  }

  /** A process that still has ticks goes on; otherwise the one with most ticks, and some, the first on
      the run list of those, is next. */
  ghost predicate Chosen(run: seq<nat>, count: map<nat, nat>, goesOn: bool, current: nat, next: nat)
    requires forall p :: p in run ==> p in count
  {
    if goesOn then next == current
    else if run == [] then next == IDLE
    else next in run && Leads(run, count, next) && count[next] > 0
  }

  // ---------------------------------------------------------------- a round

  function Burst(p: nat, n: nat): (r: seq<nat>)
    ensures |r| == n && forall i :: 0 <= i < n ==> r[i] == p
  {
    seq(n, i => p)
  }

  /** One after the other, each for as many ticks as its priority. */
  function Bursts(order: seq<nat>, priority: map<nat, nat>): seq<nat>
    requires forall p :: p in order ==> p in priority
  {
    if order == [] then []
    else
      var n := |order| - 1;
      Bursts(order[..n], priority) + Burst(order[n], priority[order[n]])
  }

  /** Who has run has no ticks left; who has not has all of them. */
  ghost predicate Between(run: seq<nat>, count: map<nat, nat>, priority: map<nat, nat>, order: seq<nat>) {
    && NoDup(order) && (forall p :: p in order ==> p in run)
    && forall p :: p in run ==> p in count && p in priority && count[p] == if p in order then 0 else priority[p]
  }

  /** One process, from when it is chosen to when its ticks are used up: at every tick in between
      do_sched lets it go on. */
  method OneBurst(s: Scheduler, p: nat) returns (ticks: seq<nat>)
    requires s.Valid() && p in s.run
    modifies s`count
    ensures s.Valid() && s.count == old(s.count)[p := 0] && ticks == Burst(p, old(s.count)[p])
  {
    ticks := [];
    while s.count[p] > 0
      invariant s.Valid() && p in s.count && s.count == old(s.count)[p := s.count[p]]
      invariant |ticks| + s.count[p] == old(s.count)[p] && forall i :: 0 <= i < |ticks| ==> ticks[i] == p
      decreases s.count[p]
    {
      s.Tick(p);
      ticks := ticks + [p];
      if s.count[p] > 0 {
        assert !AllSpent(s.run, s.count);
        var again := s.DoSched(p);
        assert again == Some(p);
      }
    }
  }

  /** By falling priority, and with the same priority as on the run list. */
  ghost predicate Ranked(run: seq<nat>, priority: map<nat, nat>, order: seq<nat>)
    requires (forall p :: p in run ==> p in priority) && forall p :: p in order ==> p in run
  {
    forall i, j :: 0 <= i < j < |order| ==> Ahead(run, priority, order[i], order[j])
  }

  /** Who has run is ahead of who has not. */
  ghost predicate RunFirst(run: seq<nat>, priority: map<nat, nat>, order: seq<nat>)
    requires (forall p :: p in run ==> p in priority) && forall p :: p in order ==> p in run
  {
    forall p, q :: p in order && q in run && q !in order ==> Ahead(run, priority, p, q)
  }

  lemma NoneRun(run: seq<nat>, priority: map<nat, nat>)
    requires forall p :: p in run ==> p in priority
    ensures Ranked(run, priority, []) && RunFirst(run, priority, [])
  {
  }

  lemma RankedNext(run: seq<nat>, count: map<nat, nat>, priority: map<nat, nat>, order: seq<nat>, next: nat)
    requires Between(run, count, priority, order) && Ranked(run, priority, order) && RunFirst(run, priority, order)
    requires Leads(run, count, next) && next !in order
    ensures Ranked(run, priority, order + [next]) && RunFirst(run, priority, order + [next])
  {
    forall q | q in run && q !in order && q != next ensures Ahead(run, priority, next, q) {
      assert Ahead(run, count, next, q);
    }
    assert forall i :: 0 <= i < |order| ==> order[i] in order;
  }

  /** From one recharge to the next, with the same processes able to run: each runs once, without a
      break, for exactly its priority in ticks, in the order of their priorities. */
  method Round(run: seq<nat>, priority: map<nat, nat>) returns (trace: seq<nat>, order: seq<nat>)
    requires NoDup(run) && IDLE !in run && run != [] && forall p :: p in run ==> p in priority && priority[p] > 0
    ensures NoDup(order) && (forall p :: p in order <==> p in run) && Ranked(run, priority, order)
    ensures trace == Bursts(order, priority)
  {
    hide Ranked, RunFirst, Leads, Between;
    var s := new Scheduler(run, priority);
    trace, order := [], [];
    NoneRun(run, priority);
    assert run[0] in run;
    var next := s.DoSched(run[0]);
    FirstTurn(run, s.count, priority);
    while next.Some?
      invariant fresh(s) && s.Valid() && s.run == run && s.priority == priority
      invariant Between(run, s.count, priority, order) && forall p :: p in order ==> p in run
      invariant trace == Bursts(order, priority)
      invariant Ranked(run, priority, order) && RunFirst(run, priority, order)
      invariant next.Some? ==> next.value in run && next.value !in order && Leads(run, s.count, next.value)
      invariant next == None ==> AllSpent(run, s.count)
      decreases Elements(run) - Elements(order)
    {
      var p := next.value;
      ghost var before, count := order, s.count;
      RankedNext(run, s.count, priority, order, p);
      var ticks := OneBurst(s, p);
      BetweenNext(run, count, priority, order, p);
      trace, order := trace + ticks, order + [p];
      assert order[..|order| - 1] == before;
      assert p in Elements(run) - Elements(before);
      next := After(s, p);
      if next.Some? { NotYet(run, s.count, priority, order, next.value); }
    }
    AllRun(run, s.count, priority, order);
  }

  /** Who runs after `current`, whose ticks are used up, before the next recharge. */
  method After(s: Scheduler, current: nat) returns (next: Option<nat>)
    requires s.Valid() && current in s.run && s.count[current] == 0
    modifies s`count
    ensures s.Valid() && s.count == old(s.count)
    ensures next == None ==> AllSpent(s.run, s.count)
    ensures next.Some? ==> Leads(s.run, s.count, next.value) && next.value in s.run && s.count[next.value] > 0
  {
    var best, selected := s.Select();
    if best == 0 { return None; }
    assert !AllSpent(s.run, s.count);
    next := s.DoSched(current);
  }

  lemma FirstTurn(run: seq<nat>, count: map<nat, nat>, priority: map<nat, nat>)
    requires forall p :: p in run ==> p in count && p in priority && count[p] == priority[p]
    ensures Between(run, count, priority, [])
  {
  }

  lemma NotYet(run: seq<nat>, count: map<nat, nat>, priority: map<nat, nat>, order: seq<nat>, next: nat)
    requires Between(run, count, priority, order) && next in run && next in count && count[next] > 0
    ensures next !in order
  {
  }

  lemma AllRun(run: seq<nat>, count: map<nat, nat>, priority: map<nat, nat>, order: seq<nat>)
    requires Between(run, count, priority, order) && AllSpent(run, count) && forall p :: p in run ==> p in priority && priority[p] > 0
    ensures NoDup(order) && forall p :: p in order <==> p in run
  {
  }

  lemma BetweenNext(run: seq<nat>, count: map<nat, nat>, priority: map<nat, nat>, order: seq<nat>, next: nat)
    requires Between(run, count, priority, order) && next in run && next !in order
    ensures Between(run, count[next := 0], priority, order + [next]) && count[next] == priority[next]
  {
    NoDupAppend(order, next);
  }
}
