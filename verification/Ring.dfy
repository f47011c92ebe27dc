// The receive buffer as the chip and the driver share it: a ring of 6 KB in which every
// frame starts with the address of the next one, then a four-byte status vector whose first
// half is the frame length, then the frame, padded so that the next one starts at an even
// address.

module Ring {
  import opened Bytes

  const MEMORY := 0x2000
  const RX_START := 0x0000
  const RX_END := 0x17FF
  const RING := 0x1800

  type Memory = m: seq<Byte> | |m| == 0x2000 witness seq(0x2000, _ => 0)

  // Addresses of the ring. Sums of two of them wrap once.
  type Addr = x: int | 0 <= x < RING

  function Wrap(x: nat): Addr
    requires x < 2 * RING
  {
    if x < RING then x else x - RING
  }

  // How far the ring address b lies ahead of a.
  function Dist(a: Addr, b: Addr): Addr { if a <= b then b - a else b - a + RING }

  function Pred(a: Addr): Addr { if a == RX_START then RX_END else a - 1 }

  function ReadRing(m: Memory, p: Addr, n: nat): (s: seq<Byte>)
    requires n <= RING
    ensures |s| == n
  {
    seq(n, i requires 0 <= i < n => m[Wrap(p + i)])
  }

  function WriteRing(m: Memory, p: Addr, bytes: seq<Byte>): Memory
  {
    seq(MEMORY, i requires 0 <= i < MEMORY =>
      if i < RING && Dist(p, i) < |bytes| then bytes[Dist(p, i)] else m[i])
  }

  // A frame as it lies in the ring: `high` are the two upper status bytes, `pad` is the
  // filler byte that follows a frame of odd length.
  datatype Frame = Frame(payload: seq<Byte>, high: (Byte, Byte), pad: Byte) {
    function Total(): (t: nat)
      ensures t % 2 == 0 && 6 + |payload| <= t <= 7 + |payload|
    {
      6 + |payload| + |payload| % 2
    }
    predicate Fits() { Total() < RING }
  }

  function Next(p: Addr, f: Frame): Addr
    requires f.Fits()
  {
    Wrap(p + f.Total())
  }

  function Header(p: Addr, f: Frame): (h: seq<Byte>)
    requires f.Fits()
    ensures |h| == 6
  {
    [Lo(Next(p, f)), Hi(Next(p, f)), Lo(|f.payload|), Hi(|f.payload|), f.high.0, f.high.1]
  }

  function Record(p: Addr, f: Frame): (s: seq<Byte>)
    requires f.Fits()
    ensures |s| == f.Total()
  {
    Header(p, f) + f.payload + if |f.payload| % 2 == 1 then [f.pad] else []
  }

  ghost predicate AllFit(q: seq<Frame>) { forall i | 0 <= i < |q| :: q[i].Fits() }

  function Size(q: seq<Frame>): nat
  {
    if q == [] then 0 else q[0].Total() + Size(q[1..])
  }

  // The bytes of a queue of frames laid one after the other from p.
  ghost function Records(p: Addr, q: seq<Frame>): (s: seq<Byte>)
    requires AllFit(q)
    ensures |s| == Size(q)
    decreases q
  {
    if q == [] then [] else Record(p, q[0]) + Records(Next(p, q[0]), q[1..])
  }

  // The unread frames q fill the ring from `base` up to, not including, `wr`.
  ghost predicate Tiles(m: Memory, base: Addr, wr: Addr, q: seq<Frame>)
  {
    && base % 2 == 0
    && AllFit(q)
    && Size(q) < RING
    && wr == Wrap(base + Size(q))
    && ReadRing(m, base, Size(q)) == Records(base, q)
  }

  // ----- the layout -----

  lemma {:induction false} SizeAppend(q: seq<Frame>, f: Frame)
    ensures Size(q + [f]) == Size(q) + f.Total()
  {
    if q == [] {
      assert [f][1..] == [];
    } else {
      assert (q + [f])[1..] == q[1..] + [f];
      SizeAppend(q[1..], f);
    }
  }

  lemma {:induction false} SizeEven(q: seq<Frame>)
    ensures Size(q) % 2 == 0
  {
    if q != [] { SizeEven(q[1..]); }
  }

  lemma RecordsFirst(p: Addr, q: seq<Frame>)
    requires AllFit(q) && q != []
    ensures AllFit(q[1..]) && Records(p, q) == Record(p, q[0]) + Records(Next(p, q[0]), q[1..])
    ensures Size(q) == q[0].Total() + Size(q[1..])
  {
  }

  lemma {:induction false} RecordsAppend(p: Addr, q: seq<Frame>, f: Frame)
    requires AllFit(q) && f.Fits() && Size(q) < RING
    ensures AllFit(q + [f])
    ensures Records(p, q + [f]) == Records(p, q) + Record(Wrap(p + Size(q)), f)
    decreases q
  {
    hide Record, Records, Size, Frame.Total;
    var r := q + [f];
    assert AllFit(r);
    RecordsFirst(p, r);
    if q == [] {
      assert r[1..] == [];
      NoRecords(p);
      NoRecords(Next(p, f));
      assert Records(p, r) == Record(p, f) + [];
    } else {
      RecordsFirst(p, q);
      assert r[1..] == q[1..] + [f];
      var n := Next(p, q[0]);
      RecordsAppend(n, q[1..], f);
      assert Wrap(n + Size(q[1..])) == Wrap(p + Size(q));
      var a, b, c := Record(p, q[0]), Records(n, q[1..]), Record(Wrap(p + Size(q)), f);
      assert Records(p, r) == a + (b + c) == a + b + c;
    }
  }

  lemma NoRecords(p: Addr)
    ensures Records(p, []) == [] && Size([]) == 0
  {
  }

  // ----- memory -----

  lemma ReadBack(m: Memory, p: Addr, bytes: seq<Byte>)
    requires |bytes| < RING
    ensures ReadRing(WriteRing(m, p, bytes), p, |bytes|) == bytes
  {
    var r := ReadRing(WriteRing(m, p, bytes), p, |bytes|);
    forall i | 0 <= i < |bytes| ensures r[i] == bytes[i] {
      assert Dist(p, Wrap(p + i)) == i;
    }
  }

  // Writing no further than the byte before the base leaves the n bytes from the base alone.
  lemma WriteElsewhere(m: Memory, base: Addr, n: nat, bytes: seq<Byte>)
    requires n < RING && n + |bytes| < RING
    ensures ReadRing(WriteRing(m, Wrap(base + n), bytes), base, n) == ReadRing(m, base, n)
  {
    var wr := Wrap(base + n);
    forall i | 0 <= i < n
      ensures ReadRing(WriteRing(m, wr, bytes), base, n)[i] == ReadRing(m, base, n)[i]
    {
      assert Dist(wr, Wrap(base + i)) == RING - n + i;
    }
  }

  lemma ReadSplit(m: Memory, p: Addr, a: nat, b: nat)
    requires a + b <= RING && a < RING
    ensures ReadRing(m, p, a + b) == ReadRing(m, p, a) + ReadRing(m, Wrap(p + a), b)
  {
    var l, r := ReadRing(m, p, a + b), ReadRing(m, p, a) + ReadRing(m, Wrap(p + a), b);
    forall i | 0 <= i < a + b ensures l[i] == r[i] {
      if i >= a { assert Wrap(Wrap(p + a) + (i - a)) == Wrap(p + i); }
    }
  }

  // ----- the two ends of the queue -----

  // The chip stores a frame at its write pointer. It may use every byte up to the one before
  // the base; in particular a full ring never looks empty.
  lemma StoreKeepsTiles(m: Memory, base: Addr, wr: Addr, q: seq<Frame>, f: Frame)
    requires Tiles(m, base, wr, q)
    requires f.Fits() && f.Total() <= Dist(wr, Pred(base))
    ensures Tiles(WriteRing(m, wr, Record(wr, f)), base, Next(wr, f), q + [f])
  {
    var n, bytes := Size(q), Record(wr, f);
    SpaceLeft(base, wr, q);
    SizeAppend(q, f);
    RecordsAppend(base, q, f);
    Extend(m, base, n, bytes);
    SizeEven(q);
  }

  lemma Extend(m: Memory, base: Addr, n: nat, bytes: seq<Byte>)
    requires n < RING && n + |bytes| < RING
    ensures ReadRing(WriteRing(m, Wrap(base + n), bytes), base, n + |bytes|) == ReadRing(m, base, n) + bytes
  {
    WriteElsewhere(m, base, n, bytes);
    ReadBack(m, Wrap(base + n), bytes);
    ReadSplit(WriteRing(m, Wrap(base + n), bytes), base, n, |bytes|);
  }

  // An abandoned reception may scribble over the free part only.
  lemma ScribbleKeepsTiles(m: Memory, base: Addr, wr: Addr, q: seq<Frame>, bytes: seq<Byte>)
    requires Tiles(m, base, wr, q)
    requires |bytes| <= Dist(wr, Pred(base))
    ensures Tiles(WriteRing(m, wr, bytes), base, wr, q)
  {
    SpaceLeft(base, wr, q);
    WriteElsewhere(m, base, Size(q), bytes);
  }

  lemma SpaceLeft(base: Addr, wr: Addr, q: seq<Frame>)
    requires Size(q) < RING && wr == Wrap(base + Size(q))
    ensures Dist(wr, Pred(base)) == RING - 1 - Size(q)
  {
  }

  // The driver follows the next-pointer of the oldest frame.
  lemma DropKeepsTiles(m: Memory, base: Addr, wr: Addr, q: seq<Frame>)
    requires Tiles(m, base, wr, q) && q != []
    ensures Tiles(m, Next(base, q[0]), wr, q[1..])
  {
    hide Record;
    var t, n := q[0].Total(), Next(base, q[0]);
    ReadSplit(m, base, t, Size(q[1..]));
    assert AllFit(q[1..]);
    SameSplit(ReadRing(m, base, t), ReadRing(m, n, Size(q[1..])), Record(base, q[0]), Records(n, q[1..]));
    assert Wrap(n + Size(q[1..])) == Wrap(base + Size(q));
  }

  lemma SameSplit(a: seq<Byte>, b: seq<Byte>, c: seq<Byte>, d: seq<Byte>)
    requires a + b == c + d && |a| == |c|
    ensures a == c && b == d
  {
    assert a == (a + b)[..|a|] == (c + d)[..|c|] == c;
    assert b == (a + b)[|a|..] == (c + d)[|c|..] == d;
  }

  // What the oldest frame's bytes are, address by address.
  lemma HeadBytes(m: Memory, base: Addr, wr: Addr, q: seq<Frame>)
    requires Tiles(m, base, wr, q) && q != []
    ensures ReadRing(m, base, q[0].Total()) == Record(base, q[0])
    ensures forall i | 0 <= i < q[0].Total() :: m[Wrap(base + i)] == Record(base, q[0])[i]
  {
    var t := q[0].Total();
    ReadSplit(m, base, t, Size(q[1..]));
    assert AllFit(q[1..]);
    var a := ReadRing(m, base, t);
    var n := Next(base, q[0]);
    SameSplit(a, ReadRing(m, n, Size(q[1..])), Record(base, q[0]), Records(n, q[1..]));
    forall i | 0 <= i < t ensures m[Wrap(base + i)] == Record(base, q[0])[i] {
      assert a[i] == m[Wrap(base + i)];
    }
  }
}
