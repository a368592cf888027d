/**
 The pipe: a ring of bytes with two offsets, each of which wraps only when the other side moves.
 */
module Pipe {

  type Byte = bv8

  // ---------------------------------------------------------------- what the offsets mean

  /** The number of bytes buffered, by the offsets alone. */
  function SizeOf(b: nat, r: nat, w: nat): int {
    if r == 0 && w == 0 then 0 else if r < w then w - r else b - r + w
  }

  /** Empty, with both offsets at 0; or linear; or wrapped, never with the writer at the end. */
  predicate Encoded(b: nat, r: nat, w: nat, size: nat) {
    && r <= b && w <= b && size == SizeOf(b, r, w)
    && (w <= r && r > 0 ==> w < b && size > 0)
  }

  function Contents(d: seq<Byte>, r: nat, w: nat, size: nat): seq<Byte>
    requires Encoded(|d|, r, w, size)
  {
    if size == 0 then [] else if r < w then d[r..w] else d[r..] + d[..w]
  }

  /** How much one read can take at once, and one write put. */
  function ReadLimit(b: nat, r: nat, w: nat): int {
    if w > 0 && r < w then w - r else b - r
  }

  function WriteLimit(b: nat, r: nat, w: nat): int {
    (if r > 0 && w <= r then r else b) - w
  }

  /** A reader has to wait exactly when the pipe is empty, or when it stands at the end of the ring:
      there it waits for a writer though bytes are buffered. */
  lemma ReaderWaitsIff(b: nat, r: nat, w: nat, size: nat)
    requires Encoded(b, r, w, size) && b > 0
    ensures size == 0 || ReadLimit(b, r, w) == 0 <==> size == 0 || r == b
    ensures size > 0 ==> 0 <= ReadLimit(b, r, w) <= size
  {
  }

  /** A writer has to wait exactly when the ring is full or it stands at the end of the ring. */
  lemma WriterWaitsIff(b: nat, r: nat, w: nat, size: nat)
    requires Encoded(b, r, w, size) && b > 0
    ensures WriteLimit(b, r, w) == 0 <==> size == b || w == b
    ensures 0 <= WriteLimit(b, r, w) <= b - size
  {
  }

  /** One of the two can always go on. */
  lemma NoDeadlock(b: nat, r: nat, w: nat, size: nat)
    requires Encoded(b, r, w, size) && b > 0
    ensures !((size == 0 || ReadLimit(b, r, w) == 0) && WriteLimit(b, r, w) == 0)
  {
    ReaderWaitsIff(b, r, w, size);
    WriterWaitsIff(b, r, w, size);
  }

  function Min(a: int, b: int): int {
    if a < b then a else b
  }

  // ---------------------------------------------------------------- the steps, on the offsets

  /** What the offsets become when `n` bytes are read, and when `n` are written. */
  function AfterRead(b: nat, r: nat, w: nat, size: nat, n: nat): (nat, nat)
    requires n <= size
  {
    if size == n then (0, 0) else (r + n, if w >= b then 0 else w)
  }

  function AfterWrite(b: nat, r: nat, w: nat, n: nat): (nat, nat) {
    (if r >= b then 0 else r, w + n)
  }

  lemma ReadStep(d: seq<Byte>, r: nat, w: nat, size: nat, n: nat)
    requires Encoded(|d|, r, w, size) && 0 < n <= size && n <= ReadLimit(|d|, r, w)
    ensures r + n <= |d| && var (r', w') := AfterRead(|d|, r, w, size, n);
      && Encoded(|d|, r', w', size - n)
      && Contents(d, r, w, size) == d[r..r + n] + Contents(d, r', w', size - n)
  {
    hide AfterRead, Encoded, Contents, ReadLimit;
    Left(d, r, w, size, n);
    Slices(d, r, r + n, if r < w then w else |d|);
  }

  /** The bytes that a read leaves. */
  lemma Left(d: seq<Byte>, r: nat, w: nat, size: nat, n: nat)
    requires Encoded(|d|, r, w, size) && 0 < n <= size && n <= ReadLimit(|d|, r, w)
    ensures var (r', w') := AfterRead(|d|, r, w, size, n);
      && Encoded(|d|, r', w', size - n) && r + n <= |d| && w <= |d| && (r < w ==> r + n <= w)
      && Contents(d, r', w', size - n) == (if r < w then d[r + n..w] else d[r + n..] + d[..w])
      && Contents(d, r, w, size) == (if r < w then d[r..w] else d[r..] + d[..w])
  {
    ReadOffsets(|d|, r, w, size, n);
  }

  lemma Slices(d: seq<Byte>, i: nat, j: nat, k: nat)
    requires i <= j <= k <= |d|
    ensures d[i..k] == d[i..j] + d[j..k]
    ensures k == |d| ==> d[k..] == [] && d[i..] == d[i..k] && d[j..] == d[j..k]
    ensures forall e: seq<Byte> :: (d[i..j] + d[j..k]) + e == d[i..j] + (d[j..k] + e)
  {
  }

  lemma ReadOffsets(b: nat, r: nat, w: nat, size: nat, n: nat)
    requires Encoded(b, r, w, size) && 0 < n <= size && n <= ReadLimit(b, r, w)
    ensures r + n <= b && var (r', w') := AfterRead(b, r, w, size, n); Encoded(b, r', w', size - n)
    ensures r < w ==> r + n <= w
  {
  }

  /** `n` bytes put at offset `w`. */
  function Put(d: seq<Byte>, w: nat, s: seq<Byte>): (e: seq<Byte>)
    requires w + |s| <= |d|
    ensures |e| == |d|
  {
    d[..w] + s + d[w + |s|..]
  }

  lemma WriteStep(d: seq<Byte>, r: nat, w: nat, size: nat, s: seq<Byte>)
    requires Encoded(|d|, r, w, size) && 0 < |s| <= WriteLimit(|d|, r, w)
    ensures w + |s| <= |d| && var (r', w') := AfterWrite(|d|, r, w, |s|);
      && Encoded(|d|, r', w', size + |s|)
      && Contents(Put(d, w, s), r', w', size + |s|) == Contents(d, r, w, size) + s
  {
    var e := Put(d, w, s);
    var (r', w') := AfterWrite(|d|, r, w, |s|);
    if r < w || (r == 0 && w == 0) {
      assert e[r..w'] == d[r..w] + s;
    } else if r == |d| {
      assert e[..w'] == d[..w] + s && d[r..] == [];
    } else {
      assert e[r..] == d[r..] && e[..w'] == d[..w] + s;
      assert d[r..] + (d[..w] + s) == (d[r..] + d[..w]) + s;
    }
  }

  // ---------------------------------------------------------------- one call, on the bytes and the offsets

  /** What a call shows: bytes read, the number of bytes written, that it has to sleep, or that nobody
      is left to read. */
  datatype Seen = Bytes(s: seq<Byte>) | Count(n: nat) | Waits | Broken

  /** The pipe without its ring: the bytes in it, in order, and the two offsets. */
  datatype Plain = Plain(s: seq<Byte>, r: nat, w: nat)

  predicate Good(b: nat, p: Plain) {
    Encoded(b, p.r, p.w, |p.s|)
  }

  function Taken(b: nat, p: Plain, n: nat): (Seen, Plain)
    requires n <= |p.s|
  {
    var (r, w) := AfterRead(b, p.r, p.w, |p.s|, n);
    (Bytes(p.s[..n]), Plain(p.s[n..], r, w))
  }

  /** A read takes from the front, no further than the end of the ring. At the end of the ring it
      starts again at the beginning, but while there are writers it waits for one to do that. */
  function ReadAt(b: nat, p: Plain, count: nat, writers: bool): (Seen, Plain)
    requires Good(b, p)
  {
    if count == 0 then (Bytes([]), p)
    else if p.s == [] || p.r == b then
      if writers then (Waits, p)
      else if p.s == [] then (Bytes([]), p)
      else Taken(b, p.(r := 0), Min(ReadLimit(b, 0, p.w), count))
    else Taken(b, p, Min(ReadLimit(b, p.r, p.w), count))
  }

  /** A write puts at the back what fits before the end of the ring, or before the reader. */
  function WriteAt(b: nat, p: Plain, s: seq<Byte>, readers: bool): (Seen, Plain)
    requires Good(b, p)
  {
    if s == [] then (Count(0), p)
    else if !readers then (Broken, p)
    else
      var n := Min(|s|, WriteLimit(b, p.r, p.w));
      if n <= 0 then (Waits, p)
      else
        var (r, w) := AfterWrite(b, p.r, p.w, n);
        (Count(n), Plain(p.s + s[..n], r, w))
  }

  /** A read waits exactly when it wants something, there are writers, and the pipe is empty or the
      reader stands at the end of the ring. Otherwise it takes from the front all that is wanted of the
      bytes in a row from where it stands, or from the beginning if that is at the end. */
  lemma ReadKeeps(b: nat, p: Plain, count: nat, writers: bool)
    requires Good(b, p) && b > 0
    ensures var (o, q) := ReadAt(b, p, count, writers);
      var from := if p.r == b then 0 else p.r;
      var inRow := if from < p.w then p.w - from else b - from;
      && Good(b, q) && (o.Waits? || o.Bytes?) && (o.Waits? ==> q == p)
      && (o.Waits? <==> count > 0 && writers && (p.s == [] || p.r == b))
      && (o.Bytes? ==> p.s == o.s + q.s && |o.s| == if p.s == [] then 0 else if count < inRow then count else inRow)
      && (o.Bytes? && o.s == [] ==> q == p)
      && (o.Bytes? && o.s != [] && q.s != [] ==> q.r == from + |o.s| && q.w == if p.w == b then 0 else p.w)
      && (o.Bytes? && o.s != [] && q.s == [] ==> q.r == 0 && q.w == 0)
  {
    ReaderWaitsIff(b, p.r, p.w, |p.s|);
  }

  /** A write waits exactly when it has something and there are readers, and the ring is full or the
      writer stands at its end. Otherwise it puts at the back all that fits before the reader, or
      before the end. */
  lemma WriteKeeps(b: nat, p: Plain, s: seq<Byte>, readers: bool)
    requires Good(b, p) && b > 0
    ensures var (o, q) := WriteAt(b, p, s, readers);
      var room := if 0 < p.r && p.w <= p.r then p.r - p.w else b - p.w;
      && Good(b, q) && !o.Bytes? && (!o.Count? ==> q == p)
      && (o.Waits? <==> s != [] && readers && (|p.s| == b || p.w == b))
      && (o.Broken? <==> s != [] && !readers)
      && (o.Count? ==> o.n <= |s| && q.s == p.s + s[..o.n] && o.n == if |s| < room then |s| else room)
      && (o.Count? && o.n > 0 ==> q.w == p.w + o.n && q.r == if p.r == b then 0 else p.r)
  {
    WriterWaitsIff(b, p.r, p.w, |p.s|);
  }

  // ---------------------------------------------------------------- the pipe

  class Ring {
    const data: array<Byte>
    var readoff: nat
    var writeoff: nat
    var size: nat

    predicate Valid()
      reads this
    {
      data.Length > 0 && Encoded(data.Length, readoff, writeoff, size)
    }

    ghost function P(): Plain
      requires Valid()
      reads this, data
    {
      Plain(Contents(data[..], readoff, writeoff, size), readoff, writeoff)
    }

    constructor (length: nat)
      requires length > 0
      ensures Valid() && P() == Plain([], 0, 0) && data.Length == length && fresh(data)
    {
      data := new Byte[length](i => 0);
      readoff, writeoff, size := 0, 0, 0;
    }

    /** pipefs_read, up to where it returns or has to sleep. */
    method Read(count: nat, writers: bool) returns (seen: Seen)
      requires Valid()
      modifies this
      ensures Valid() && Good(data.Length, old(P())) && (seen, P()) == ReadAt(data.Length, old(P()), count, writers)
    {
      seen := Bytes([]);
      var b := data.Length;
      ghost var p := P();
      ContentsSize(data[..], readoff, writeoff, size);
      while count > 0
        invariant Valid() && seen == Bytes([]) && |p.s| == size
        invariant P() == p || (P() == p.(r := 0) && p.r == b && p.s != [] && !writers && count > 0)
        decreases readoff
      {
        ReaderWaitsIff(b, readoff, writeoff, size);
        var n := Min(ReadLimit(b, readoff, writeoff), count);
        if size > 0 && n > 0 {
          var out := TakeOut(n);
          return Bytes(out);
        } else if writers {
          return Waits;
        } else if size > 0 && readoff >= b {
          assert data[readoff..] == [];
          assert [] + data[..writeoff] == data[0..writeoff];
          readoff := 0;
          continue;
        } else {
          return;
        }
      }
    }

    /** The bytes that one pass of the loop moves out, and what it does to the offsets. */
    method TakeOut(n: nat) returns (out: seq<Byte>)
      requires Valid() && 0 < n <= size && n <= ReadLimit(data.Length, readoff, writeoff)
      modifies this
      ensures Valid() && n <= |old(P()).s| && (Bytes(out), P()) == Taken(data.Length, old(P()), n)
    {
      ReadStep(data[..], readoff, writeoff, size, n);
      ContentsSize(data[..], readoff, writeoff, size);
      out := data[readoff..readoff + n];
      readoff := readoff + n;
      size := size - n;
      if writeoff >= data.Length { writeoff := 0; }
      if size == 0 { readoff, writeoff := 0, 0; }
      assert old(P()).s[..n] == out && old(P()).s[n..] == P().s;
    }

    /** One pass of the loop of pipefs_write, up to where it goes on, returns or has to sleep. */
    method Write(s: seq<Byte>, readers: bool) returns (seen: Seen)
      requires Valid()
      modifies this, data
      ensures Valid() && Good(data.Length, old(P())) && (seen, P()) == WriteAt(data.Length, old(P()), s, readers)
    {
      ContentsSize(data[..], readoff, writeoff, size);
      if s == [] { return Count(0); }
      if !readers { return Broken; }
      var b := data.Length;
      WriterWaitsIff(b, readoff, writeoff, size);
      var n := Min(|s|, WriteLimit(b, readoff, writeoff));
      if n <= 0 { return Waits; }
      WriteStep(data[..], readoff, writeoff, size, s[..n]);
      CopyIn(data, writeoff, s[..n]);
      writeoff := writeoff + n;
      size := size + n;
      if readoff >= b { readoff := 0; }
      return Count(n);
    }
  }

  lemma ContentsSize(d: seq<Byte>, r: nat, w: nat, size: nat)
    requires Encoded(|d|, r, w, size)
    ensures |Contents(d, r, w, size)| == size
  {
  }

  /** memcpy_b into the ring. */
  method CopyIn(a: array<Byte>, at: nat, s: seq<Byte>)
    requires at + |s| <= a.Length
    modifies a
    ensures a[..] == Put(old(a[..]), at, s)
  {
    for k := 0 to |s|
      invariant a[..] == Put(old(a[..]), at, s[..k])
    {
      a[at + k] := s[k];
      PutMore(old(a[..]), at, s, k);
    }
    assert s[..|s|] == s;
  }

  lemma PutMore(d: seq<Byte>, w: nat, s: seq<Byte>, k: nat)
    requires w + |s| <= |d| && k < |s|
    ensures Put(d, w, s[..k])[w + k := s[k]] == Put(d, w, s[..k + 1])
  {
  }

  // ---------------------------------------------------------------- every run

  datatype Op = Rd(count: nat, writers: bool) | Wr(s: seq<Byte>, readers: bool)

  function Step(b: nat, p: Plain, op: Op): (r: (Seen, Plain))
    requires Good(b, p) && b > 0
    ensures Good(b, r.1)
  {
    match op
    case Rd(count, writers) => ReadKeeps(b, p, count, writers); ReadAt(b, p, count, writers)
    case Wr(s, readers) => WriteKeeps(b, p, s, readers); WriteAt(b, p, s, readers)
  }

  function After(b: nat, ops: seq<Op>): (p: Plain)
    requires b > 0
    ensures Good(b, p)
  {
    if ops == [] then Plain([], 0, 0) else Step(b, After(b, ops[..|ops| - 1]), ops[|ops| - 1]).1
  }

  /** What each call shows. */
  function Shown(b: nat, ops: seq<Op>): (r: seq<Seen>)
    requires b > 0
    ensures |r| == |ops|
  {
    if ops == [] then []
    else
      var n := |ops| - 1;
      Shown(b, ops[..n]) + [Step(b, After(b, ops[..n]), ops[n]).0]
  }

  /** All the bytes the reads among these calls gave, and all that the writes took. */
  function Got(seen: seq<Seen>): seq<Byte> {
    if seen == [] then []
    else
      var n := |seen| - 1;
      Got(seen[..n]) + (if seen[n].Bytes? then seen[n].s else [])
  }

  function Accepted(ops: seq<Op>, seen: seq<Seen>): seq<Byte>
    requires |ops| == |seen|
  {
    if ops == [] then []
    else
      var n := |ops| - 1;
      Accepted(ops[..n], seen[..n]) + (if ops[n].Wr? && seen[n].Count? && seen[n].n <= |ops[n].s| then ops[n].s[..seen[n].n] else [])
  }

  /** First in, first out: what has been read, followed by what is in the pipe, is what has been
      written, and there is never more in it than fits. */
  lemma {:induction false} Fifo(b: nat, ops: seq<Op>)
    requires b > 0
    ensures Got(Shown(b, ops)) + After(b, ops).s == Accepted(ops, Shown(b, ops)) && |After(b, ops).s| <= b
  {
    if ops != [] {
      var n := |ops| - 1;
      Fifo(b, ops[..n]);
      var p, op := After(b, ops[..n]), ops[n];
      assert Shown(b, ops)[..n] == Shown(b, ops[..n]);
      FifoStep(b, p, op, Got(Shown(b, ops[..n])));
    }
  }

  lemma FifoStep(b: nat, p: Plain, op: Op, got: seq<Byte>)
    requires Good(b, p) && b > 0
    ensures var (o, q) := Step(b, p, op);
      && (op.Rd? ==> !o.Count? && (got + (if o.Bytes? then o.s else [])) + q.s == got + p.s)
      && (op.Wr? ==> !o.Bytes? && got + q.s == (got + p.s) + (if o.Count? && o.n <= |op.s| then op.s[..o.n] else []))
  {
    hide ReadAt, WriteAt, Encoded;
    match op {
      case Rd(count, writers) => ReadKeeps(b, p, count, writers);
      case Wr(s, readers) => WriteKeeps(b, p, s, readers);
    }
  }

  /** Whatever readers and writers do, in whatever order: the ring shows each of them what the plain
      pipe shows. */
  method Run(length: nat, ops: seq<Op>) returns (seen: seq<Seen>)
    requires length > 0
    ensures seen == Shown(length, ops)
  {
    hide ReadAt, WriteAt, Contents, Encoded;
    var p := new Ring(length);
    seen := [];
    for i := 0 to |ops|
      invariant fresh(p) && fresh(p.data) && p.Valid() && p.data.Length == length
      invariant seen == Shown(length, ops[..i]) && p.P() == After(length, ops[..i])
    {
      assert ops[..i + 1][..i] == ops[..i];
      var o;
      match ops[i] {
        case Rd(count, writers) => o := p.Read(count, writers);
        case Wr(s, readers) => o := p.Write(s, readers);
      }
      seen := seen + [o];
    }
    assert ops[..|ops|] == ops;
  }
}
