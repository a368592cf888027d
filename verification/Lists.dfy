/** Lists without repetition, as the kernel links its objects into them. */
module Lists {

  predicate NoDup(s: seq<nat>) {
    s == [] || (s[0] !in s[1..] && NoDup(s[1..]))
  }

  lemma {:induction false} NoDupAppend(s: seq<nat>, x: nat)
    requires NoDup(s) && x !in s
    ensures NoDup(s + [x])
  {
    if s != [] {
      NoDupAppend(s[1..], x);
      assert (s + [x])[1..] == s[1..] + [x];
    }
  }

  lemma NoDupPrepend(s: seq<nat>, x: nat)
    requires NoDup(s) && x !in s
    ensures NoDup([x] + s)
  {
    assert ([x] + s)[1..] == s;
  }

  ghost function Elements(s: seq<nat>): set<nat> {
    set x | x in s
  }

  /** The list without one of its members. */
  function Without(s: seq<nat>, x: nat): (r: seq<nat>)
    ensures NoDup(s) ==> NoDup(r)
    ensures forall y :: y in r <==> y in s && y != x
    ensures x !in s ==> r == s
    ensures |r| <= |s|
  {
    if s == [] then []
    else if s[0] == x then Without(s[1..], x)
    else
      var t := Without(s[1..], x);
      assert ([s[0]] + t)[1..] == t;
      [s[0]] + t
  }

  lemma {:induction false} WithoutLength(s: seq<nat>, x: nat)
    requires NoDup(s)
    ensures |Without(s, x)| == |s| - (if x in s then 1 else 0)
  {
    if s != [] {
      WithoutLength(s[1..], x);
      assert s == [s[0]] + s[1..];
      assert s[0] == x ==> x !in s[1..];
    }
  }

  lemma WithoutFirst(s: seq<nat>)
    requires NoDup(s) && s != []
    ensures Without(s, s[0]) == s[1..]
  {
  }

  /** The list without some of its members. */
  function Except(s: seq<nat>, gone: set<nat>): (r: seq<nat>)
    ensures forall y :: y in r <==> y in s && y !in gone
  {
    if s == [] then [] else if s[0] in gone then Except(s[1..], gone) else [s[0]] + Except(s[1..], gone)
  }

  lemma {:induction false} ExceptNone(s: seq<nat>, gone: set<nat>)
    requires forall y :: y in gone ==> y !in s
    ensures Except(s, gone) == s
  {
    if s != [] {
      assert s[0] in s;
      ExceptNone(s[1..], gone);
    }
  }

  lemma {:induction false} ExceptMore(s: seq<nat>, gone: set<nat>, x: nat)
    ensures Without(Except(s, gone), x) == Except(s, gone + {x})
  {
    if s != [] {
      ExceptMore(s[1..], gone, x);
      var t := Except(s[1..], gone);
      assert ([s[0]] + t)[1..] == t;
    }
  }

  lemma ExceptOne(s: seq<nat>, x: nat)
    ensures Except(s, {x}) == Without(s, x)
  {
    ExceptNone(s, {});
    ExceptMore(s, {}, x);
    assert {} + {x} == {x};
  }

  lemma {:induction false} ExceptTwice(s: seq<nat>, gone: set<nat>, more: set<nat>)
    ensures Except(Except(s, gone), more) == Except(s, gone + more)
  {
    if s != [] {
      ExceptTwice(s[1..], gone, more);
      var t := Except(s[1..], gone);
      assert ([s[0]] + t)[1..] == t;
    }
  }

  /** The first `d` go behind the others. */
  function Turned(s: seq<nat>, d: nat): seq<nat>
    requires d <= |s|
  {
    s[d..] + s[..d]
  }
}
