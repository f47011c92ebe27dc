// Receiving: the driver follows the next-pointers through the ring while the chip goes on
// storing frames. The network side may act between any two SPI transactions, also between
// the two of one register access, and between any two streamed bytes; `wire` says what it
// does at each of these points.

module Reception {
  import opened Bytes
  import opened Ring
  import opened Registers
  import opened Enc28j60
  import opened BankCache
  import opened Driver
  import opened ChipRuns
  import D = Dispatch

  // ----- what the network side leaves alone -----

  // The status bytes of the frame under transmission stay out of the receive ring.
  predicate TxSafe(c: Chip)
  {
    c.Sending() ==> c.Etxst() == TX_START && TX_START <= c.Etxnd() && c.Etxnd() + 7 < MEMORY && !c.TxFlag()
  }

  // What becomes of the transmit side while the driver leaves it alone: an idle transmitter
  // stays idle with its memory as it is; a frame under transmission stays as it is until, once,
  // it goes out.
  predicate TxHistory(c: Chip, d: Chip)
  {
    if !c.Sending() then
      !d.Sending() && d.out == c.out && d.mem[TX_START..] == c.mem[TX_START..] && d.TxFlag() == c.TxFlag()
    else if d.Sending() then d.out == c.out && d.Outgoing() == c.Outgoing() && d.TxFlag() == c.TxFlag()
    else d.out == c.out + [c.Outgoing()] && d.TxFlag()
  }

  ghost predicate Drift(c: Chip, d: Chip) { Nearing(c, d) && d.Bsel() == c.Bsel() }

  // The same where the driver may also have gone to another bank. What the dispatcher can see of
  // it is a run of the chip.
  ghost predicate Nearing(c: Chip, d: Chip) { Apart(c, d) && Evolves(c, d) }

  predicate Apart(c: Chip, d: Chip)
  {
    && d.bus == c.bus && d.latch == c.latch && d.phy == c.phy && d.mii == c.mii
    && d.Receiving() == c.Receiving()
    && c.taken <= d.taken && TxHistory(c, d)
    && d.Packets() - c.Packets() == |d.taken| - |c.taken|
    && (forall i | 0 <= i < 128 && i !in {0x0E, 0x0F, 0x1C, 0x1F, 0x39} :: d.file[i] == c.file[i])
  }

  // The frames from number n on are unread; they tile the ring from `base` to the write
  // pointer, and the byte before `base` is the one reception may not touch.
  ghost predicate RingOf(c: Chip, base: Addr, n: nat)
  {
    && c.Erxst() == RX_START && c.Erxnd() == RX_END && c.AutoInc()
    && c.Erxwrpt() < RING && c.Erxrdpt() == Pred(base)
    && n <= |c.taken|
    && Tiles(c.mem, base, c.Erxwrpt(), c.taken[n..])
  }

  lemma SameRing(c: Chip, d: Chip, base: Addr, n: nat)
    requires RingOf(c, base, n) && d.mem == c.mem && d.taken == c.taken && d.file[0x1E] == c.file[0x1E]
    requires d.file[0x08..0x10] == c.file[0x08..0x10]
    ensures RingOf(d, base, n)
  {
    forall i | 0x08 <= i < 0x10 ensures d.file[i] == c.file[i] {
      assert d.file[0x08..0x10][i - 8] == c.file[0x08..0x10][i - 8];
    }
  }

  lemma TxUntouched(c: Chip, d: Chip)
    requires TxSafe(c) && d.out == c.out && d.mem[TX_START..] == c.mem[TX_START..]
    requires d.Sending() == c.Sending() && d.TxFlag() == c.TxFlag()
    requires d.Etxst() == c.Etxst() && d.Etxnd() == c.Etxnd()
    ensures TxHistory(c, d)
  {
    hide Bit, Chip.Etxst, Chip.Etxnd;
    var b := c.Etxnd() - TX_START + 1;
    if c.Sending() {
      assert c.mem[TX_START + 1..TX_START + b] == c.mem[TX_START..][1..b];
      assert d.mem[TX_START + 1..TX_START + b] == d.mem[TX_START..][1..b];
    }
  }

  // What an accepted frame does to the chip.
  lemma ArriveEffect(c: Chip, f: Frame)
    requires c.Accepts(f)
    ensures c.RingPointers() && f.Fits()
    ensures var d, wr: Addr := c.Undergo(Arrive(f)), c.Erxwrpt();
            && f.Total() <= Dist(wr, c.Erxrdpt()) && d.Erxwrpt() == Next(wr, f)
            && d == c.(mem := WriteRing(c.mem, wr, Record(wr, f)), file := d.file, taken := c.taken + [f])
            && d.Packets() == c.Packets() + 1
            && forall i | 0 <= i < 128 && i !in {0x0E, 0x0F, 0x39} :: d.file[i] == c.file[i]
  {
    hide Record, WriteRing, Bit, Pair;
    PairSplits(Next(c.Erxwrpt(), f));
  }

  lemma ArriveKeeps(c: Chip, f: Frame, base: Addr, n: nat)
    requires RingOf(c, base, n) && c.Accepts(f) && TxSafe(c)
    ensures RingOf(c.Undergo(Arrive(f)), base, n)
    ensures Apart(c, c.Undergo(Arrive(f))) && c.Undergo(Arrive(f)).Bsel() == c.Bsel()
  {
    hide Tiles, Record, WriteRing, TxHistory, TxSafe, Bit, Pair;
    hide Frame.Fits, Chip.Undergo, Chip.Accepts, Next, Pred, Dist;
    ArriveEffect(c, f);
    var d, wr: Addr := c.Undergo(Arrive(f)), c.Erxwrpt();
    StoreKeepsTiles(c.mem, base, wr, c.taken[n..], f);
    assert d.taken[n..] == c.taken[n..] + [f];
    HighMemory(c.mem, wr, Record(wr, f));
    TxUntouched(c, d);
  }

  lemma HighMemory(m: Memory, p: Addr, bytes: seq<Byte>)
    ensures WriteRing(m, p, bytes)[TX_START..] == m[TX_START..]
  {
  }

  lemma ScribbleKeeps(c: Chip, bytes: seq<Byte>, base: Addr, n: nat)
    requires RingOf(c, base, n) && TxSafe(c)
    ensures RingOf(c.Undergo(Scribble(bytes)), base, n)
    ensures Apart(c, c.Undergo(Scribble(bytes))) && c.Undergo(Scribble(bytes)).Bsel() == c.Bsel()
  {
    hide Tiles, WriteRing, TxHistory, Bit;
    if c.Receiving() && c.Room(|bytes|) {
      ScribbleKeepsTiles(c.mem, base, c.Erxwrpt(), c.taken[n..], bytes);
      HighMemory(c.mem, c.Erxwrpt(), bytes);
    }
    TxUntouched(c, c.Undergo(Scribble(bytes)));
  }

  lemma TxDoneKeeps(c: Chip, failed: bool, base: Addr, n: nat)
    requires RingOf(c, base, n) && TxSafe(c)
    ensures RingOf(c.Undergo(TxDone(failed)), base, n)
    ensures Apart(c, c.Undergo(TxDone(failed))) && c.Undergo(TxDone(failed)).Bsel() == c.Bsel()
    ensures !c.Undergo(TxDone(failed)).Sending()
  {
    hide Or, Bit;
    if !c.Sending() { TxUntouched(c, c); }
    if c.Sending() {
      var e := c.file[0x1F];
      var d := c.Undergo(TxDone(failed));
      MaskBits();
      AndNotBit(e, 0x08, 2);
      AndNotBit(e, 0x08, 3);
      KeepLowBits(e, 0x08);
      StatusOutsideRing(c);
      SameRingBytes(c.mem, d.mem, base, c.Erxwrpt(), c.taken[n..]);
      OrBit(c.file[0x1C], if failed then 0x0A else 0x08, 3);
    }
  }

  lemma StatusOutsideRing(c: Chip)
    requires TX_START <= c.Etxnd() && c.Etxnd() + 7 < MEMORY
    ensures forall i | 0 <= i < RING :: c.StatusVector()[i] == c.mem[i]
  {
    var e := c.Etxnd();
    forall i | 0 <= i < RING ensures c.StatusVector()[i] == c.mem[i] {
      assert (i - e - 1) % 0x2000 == i - e - 1 + 0x2000;
    }
  }

  lemma SameRingBytes(m: Memory, m': Memory, base: Addr, wr: Addr, q: seq<Frame>)
    requires Tiles(m, base, wr, q) && forall i | 0 <= i < RING :: m'[i] == m[i]
    ensures Tiles(m', base, wr, q)
  {
    var l, r := ReadRing(m', base, Size(q)), ReadRing(m, base, Size(q));
    forall i | 0 <= i < Size(q) ensures l[i] == r[i] {
      assert m'[Wrap(base + i)] == m[Wrap(base + i)];
    }
  }

  lemma RaiseKeeps(c: Chip, mask: Byte, base: Addr, n: nat)
    requires RingOf(c, base, n) && TxSafe(c) && (mask == 0x01 || mask == 0x10)
    ensures RingOf(c.Raise(mask), base, n)
    ensures Apart(c, c.Raise(mask)) && c.Raise(mask).Bsel() == c.Bsel()
  {
    hide TxHistory, Tiles, Or, Bit;
    MaskBits();
    OrBit(c.file[0x1C], mask, 3);
    TxUntouched(c, c.Raise(mask));
    SameRing(c, c.Raise(mask), base, n);
  }

  lemma UndergoKeeps(c: Chip, e: Event, base: Addr, n: nat)
    requires RingOf(c, base, n) && TxSafe(c)
    ensures var d := c.Undergo(e);
            RingOf(d, base, n) && TxSafe(d) && Apart(c, d) && d.Bsel() == c.Bsel()
  {
    hide RingOf;
    match e
    case Arrive(f) => if c.Accepts(f) { ArriveKeeps(c, f, base, n); } else { RaiseKeeps(c, 0x01, base, n); }
    case Scribble(bytes) => ScribbleKeeps(c, bytes, base, n);
    case Overrun => RaiseKeeps(c, 0x01, base, n);
    case TxDone(failed) => TxDoneKeeps(c, failed, base, n);
    case LinkChange => RaiseKeeps(c, 0x10, base, n);
  }

  lemma PlayKeeps(c: Chip, e: Event, base: Addr, n: nat)
    requires RingOf(c, base, n) && TxSafe(c)
    ensures RingOf(c.Play(e), base, n) && TxSafe(c.Play(e)) && Drift(c, c.Play(e))
  {
    hide Evolves, Chip.Undergo, Tiles, Bit;
    PlayEvolves(c, e);
    UndergoKeeps(c, e, base, n);
  }

  lemma {:induction false} PlayAllKeeps(c: Chip, es: seq<Event>, base: Addr, n: nat)
    requires RingOf(c, base, n) && TxSafe(c)
    ensures var d := PlayAll(c, es);
            RingOf(d, base, n) && TxSafe(d) && Drift(c, d)
    decreases es
  {
    hide RingOf, TxSafe, Chip.Play, Chip.Bsel;
    if es != [] {
      PlayKeeps(c, es[0], base, n);
      PlayAllKeeps(c.Play(es[0]), es[1..], base, n);
      DriftTwice(c, c.Play(es[0]), PlayAll(c, es));
    } else {
      DriftSelf(c);
    }
  }

  lemma DriftSelf(c: Chip)
    requires TxSafe(c)
    ensures Drift(c, c)
  {
    hide Evolves;
    TxUntouched(c, c);
    Unshown(c, c);
  }

  lemma DriftTwice(a: Chip, b: Chip, c: Chip)
    requires Drift(a, b) && Drift(b, c)
    ensures Drift(a, c)
  {
    hide Evolves;
    EvolvesTwice(a, b, c);
  }

  lemma NearingTwice(a: Chip, b: Chip, c: Chip)
    requires Nearing(a, b) && Nearing(b, c)
    ensures Nearing(a, c)
  {
    hide Evolves;
    EvolvesTwice(a, b, c);
  }

  // Going to bank 0.
  lemma ToBankZero(c: Chip, d: Chip, base: Addr, n: nat)
    requires RingOf(c, base, n) && TxSafe(c) && d == BankCache.Select(c, BANK_0)
    ensures RingOf(d, base, n) && TxSafe(d) && Nearing(c, d) && d.Bsel() == 0 && d.log == c.log
  {
    hide Tiles, TxHistory, Bit, Evolves;
    SelectSelects(c, BANK_0);
    QuarterBits(c.file[0x1F], d.file[0x1F], 2);
    QuarterBits(c.file[0x1F], d.file[0x1F], 3);
    SameRing(c, d, base, n);
    TxUntouched(c, d);
    Unshown(c, d);
  }

  // ----- streaming -----

  // A buffer read is under way and the next byte comes from ring address p.
  predicate Streaming(c: Chip, p: Addr)
  {
    c.bus.Body? && c.bus.op == RBM && c.bus.arg == BUFFER && c.Erdpt() == p
  }

  lemma StreamByte(c: Chip, p: Addr)
    requires Streaming(c, p) && c.AutoInc() && c.Erxst() == RX_START && c.Erxnd() == RX_END
    ensures var (b, d) := c.Miso();
            && b == c.mem[p] && Streaming(d, Wrap(p + 1))
            && d == c.(bus := d.bus, file := d.file)
            && forall j | 2 <= j < 128 :: d.file[j] == c.file[j]
  {
    hide Chip.AutoInc, Chip.Peek, Chip.Polled, MacMii, Pair, Lo, Hi;
    ReadByteEffect(c, p);
    PairSplits(Wrap(p + 1));
    hide Chip.ReadByte;
    var (b, d) := c.ReadByte();
    assert c.Miso() == (b, d.(bus := Body(RBM, BUFFER, c.bus.done + 1)));
  }

  lemma ReadByteEffect(c: Chip, p: Addr)
    requires c.Erdpt() == p && c.AutoInc() && c.Erxst() == RX_START && c.Erxnd() == RX_END
    ensures c.ReadByte().0 == c.mem[p]
    ensures c.ReadByte().1 == c.(file := c.file[0x00 := Lo(Wrap(p + 1))][0x01 := Hi(Wrap(p + 1))])
  {
    hide Chip.AutoInc, Chip.Erxst, Chip.Erxnd, Chip.Erdpt;
    NextAddress(p);
  }

  lemma NextAddress(p: Addr)
    ensures p % 0x2000 == p
    ensures (if p == RX_END then RX_START else (p + 1) % 0x2000) == Wrap(p + 1)
  {
  }

  // The next streamed byte is the next byte of the oldest unread frame, across the wrap.
  lemma StreamStep(c: Chip, base: Addr, n: nat, i: nat)
    requires RingOf(c, base, n) && n < |c.taken| && i < c.taken[n].Total() && Streaming(c, Wrap(base + i))
    ensures c.taken[n].Fits()
    ensures var (b, d) := c.Miso();
            && b == Record(base, c.taken[n])[i]
            && RingOf(d, base, n) && Streaming(d, Wrap(base + i + 1))
            && d == c.(bus := d.bus, file := d.file)
            && forall j | 2 <= j < 128 :: d.file[j] == c.file[j]
  {
    hide Tiles, Record, Chip.Miso, Streaming;
    hide Chip.Erdpt, Chip.Erxst, Chip.Erxnd, Chip.Erxwrpt, Chip.Erxrdpt, Chip.AutoInc;
    OldestBytes(c, base, n);
    StreamByte(c, Wrap(base + i));
    SameRing(c, c.Miso().1, base, n);
  }

  lemma OldestBytes(c: Chip, base: Addr, n: nat)
    requires RingOf(c, base, n) && n < |c.taken|
    ensures c.taken[n].Fits()
    ensures forall i | 0 <= i < c.taken[n].Total() :: c.mem[Wrap(base + i)] == Record(base, c.taken[n])[i]
  {
    hide Tiles, Record;
    var q := c.taken[n..];
    assert q[0] == c.taken[n];
    QueueFits(c.mem, base, c.Erxwrpt(), q);
    HeadBytes(c.mem, base, c.Erxwrpt(), q);
  }

  lemma QueueFits(m: Memory, base: Addr, wr: Addr, q: seq<Frame>)
    requires Tiles(m, base, wr, q)
    ensures AllFit(q)
  {
  }

  // ----- the receive routine -----

  // What a receive leaves alone, network side included: everything but ERDPT, ERXRDPT, the
  // bank selection, and what Drift lets change.
  ghost predicate Alongside(c: Chip, d: Chip) { Beside(c, d) && Evolves(c, d) }

  predicate Beside(c: Chip, d: Chip)
  {
    && d.phy == c.phy && d.mii == c.mii && d.Receiving() == c.Receiving()
    && c.taken <= d.taken && TxHistory(c, d)
    && d.Packets() - c.Packets() == |d.taken| - |c.taken|
    && (forall i | 2 <= i < 128 && i !in {0x0C, 0x0D, 0x0E, 0x0F, 0x1C, 0x1F, 0x39} :: d.file[i] == c.file[i])
  }

  lemma AlongsideTwice(a: Chip, b: Chip, c: Chip)
    requires Alongside(a, b) && (Alongside(b, c) || Nearing(b, c) || Drift(b, c))
    ensures Alongside(a, c)
  {
    hide Evolves;
    EvolvesTwice(a, b, c);
  }

  // The driver's own pointer, rxPkt.ptrAddr.
  function Ptr(dev: Device): Word
    requires dev.store.Length >= STORE
    reads dev, dev.store
  {
    Pair(dev.store[PTR_ADDR], dev.store[PTR_ADDR + 1])
  }

  ghost predicate Ready(dev: Device)
    reads dev
  {
    dev.Quiet() && Weak(dev.View()) && dev.store.Length >= STORE && TxSafe(dev.chip)
  }

  method Happen(dev: Device, es: seq<Event>, ghost base: Addr, ghost n: nat)
    requires RingOf(dev.chip, base, n) && TxSafe(dev.chip)
    modifies dev`chip
    ensures RingOf(dev.chip, base, n) && TxSafe(dev.chip) && Drift(old(dev.chip), dev.chip)
    ensures dev.chip == PlayAll(old(dev.chip), es) && dev.chip.log == old(dev.chip).log + es
  {
    hide RingOf, TxSafe, Drift, Chip.Play;
    PlayAllKeeps(dev.chip, es, base, n);
    PlayAllLog(dev.chip, es);
    dev.chip := PlayAll(dev.chip, es);
  }

  // What the network does before an access, and between its two transactions; all of it before
  // a single transaction or a streamed byte.
  datatype Pause = Pause(before: seq<Event>, within: seq<Event>)

  function Events(w: Pause): seq<Event> { w.before + w.within }

  // All that the network does at the points from i up to j.
  function Played(wire: nat -> Pause, i: nat, j: nat): seq<Event>
    requires i <= j
    decreases j
  {
    if i == j then [] else Played(wire, i, j - 1) + Events(wire(j - 1))
  }

  lemma LogThen(a: Chip, b: Chip, c: Chip, es: seq<Event>, fs: seq<Event>)
    requires b.log == a.log + es && c.log == b.log + fs
    ensures c.log == a.log + (es + fs)
  {
  }

  lemma {:induction false} PlayedOn(wire: nat -> Pause, i: nat, j: nat, k: nat)
    requires i <= j <= k
    ensures Played(wire, i, k) == Played(wire, i, j) + Played(wire, j, k)
    decreases k
  {
    hide Events;
    if j < k { PlayedOn(wire, i, j, k - 1); }
  }

  lemma PlayedNone(wire: nat -> Pause, i: nat)
    ensures Played(wire, i, i) == []
  {
  }

  lemma PlayedNext(wire: nat -> Pause, i: nat, j: nat)
    requires i <= j
    ensures Played(wire, i, j + 1) == Played(wire, i, j) + Events(wire(j))
  {
  }

  lemma PlayedTwo(wire: nat -> Pause, i: nat)
    ensures Played(wire, i, i + 2) == Events(wire(i)) + Events(wire(i + 1))
    ensures Played(wire, i, i + 1) == Events(wire(i))
  {
    assert Played(wire, i, i) == [];
    assert Played(wire, i, i + 2) == Played(wire, i, i + 1) + Events(wire(i + 1));
  }

  function Approached(c: Chip, w: Pause): Chip
  {
    PlayAll(BankCache.Select(PlayAll(c, w.before), BANK_0), w.within)
  }

  // The first half of an access to bank 0: the bank switch, with the network acting before and
  // after it.
  method Approach(dev: Device, w: Pause, ghost base: Addr, ghost n: nat)
    requires Ready(dev) && RingOf(dev.chip, base, n)
    modifies dev`chip, dev`bnBank
    ensures Ready(dev) && RingOf(dev.chip, base, n)
    ensures Nearing(old(dev.chip), dev.chip) && dev.chip.Bsel() == 0
    ensures dev.bnBank == old(dev.bnBank) && dev.chip.log == old(dev.chip).log + Events(w)
    ensures dev.chip == Approached(old(dev.chip), w)
  {
    hide RingOf, TxSafe, Nearing, Perform, BankCache.Select, Chip.Bsel;
    ghost var c := dev.chip;
    Happen(dev, w.before, base, n);
    ghost var c1 := dev.chip;
    DriftSplit(c, c1);
    BankZeroSwitch(dev.View());
    dev.SelectBank(BANK_0);
    ghost var c2 := dev.chip;
    ToBankZero(c1, c2, base, n);
    NearingTwice(c, c1, c2);
    Happen(dev, w.within, base, n);
    LogThen(c, c1, dev.chip, w.before, w.within);
    DriftSplit(c2, dev.chip);
    NearingTwice(c, c2, dev.chip);
  }

  lemma DriftSplit(c: Chip, d: Chip)
    requires Drift(c, d)
    ensures Nearing(c, d) && d.Bsel() == c.Bsel() && d.bus == c.bus
  {
  }

  lemma BankZeroSwitch(p: Port)
    requires Weak(p)
    ensures Switch(p, BANK_0) == Port(BankCache.Select(p.chip, BANK_0), p.bnBank)
    ensures forall c: Chip | c.Bsel() == 0 :: Weak(Port(c, p.bnBank))
  {
    if p.bnBank == BANK_0 {
      AlreadyThere(p, Write(ERDPTL, 0));
      assert BankCache.Select(p.chip, BANK_0).file == p.chip.file;
    }
  }

  // Streams len bytes of the oldest unread frame into the packet store.
  method StreamInto(dev: Device, off: nat, len: nat, wire: nat -> Pause, point: nat,
                    ghost base: Addr, ghost n: nat, ghost pos: nat)
    requires dev.store.Length >= STORE && off + len <= STORE
    requires RingOf(dev.chip, base, n) && TxSafe(dev.chip) && n < |dev.chip.taken|
    requires dev.chip.taken[n].Fits() && pos + len <= dev.chip.taken[n].Total()
    requires Streaming(dev.chip, Wrap(base + pos))
    modifies dev`chip, dev.store
    ensures RingOf(dev.chip, base, n) && TxSafe(dev.chip) && Alongside(old(dev.chip), dev.chip)
    ensures Streaming(dev.chip, Wrap(base + pos + len)) && dev.chip.Bsel() == old(dev.chip).Bsel()
    ensures n < |dev.chip.taken| && dev.chip.taken[n] == old(dev.chip).taken[n]
    ensures dev.store[off..off + len] == Record(base, old(dev.chip).taken[n])[pos..pos + len]
    ensures dev.chip.log == old(dev.chip).log + Played(wire, point, point + len)
    ensures forall j | 0 <= j < dev.store.Length && !(off <= j < off + len) :: dev.store[j] == old(dev.store[j])
  {
    hide RingOf, TxSafe, Streaming, Alongside, Drift, Record, Chip.Bsel, Wrap, Chip.Miso, Played, Events;
    PlayedNone(wire, point);
    ghost var c, f := dev.chip, dev.chip.taken[n];
    AlongsideSelf(c);
    var i := 0;
    while i < len
      invariant 0 <= i <= len
      invariant RingOf(dev.chip, base, n) && TxSafe(dev.chip) && Alongside(c, dev.chip)
      invariant n < |dev.chip.taken| && dev.chip.taken[n] == f
      invariant Streaming(dev.chip, Wrap(base + pos + i)) && dev.chip.Bsel() == c.Bsel()
      invariant dev.store[off..off + i] == Record(base, f)[pos..pos + i]
      invariant dev.chip.log == c.log + Played(wire, point, point + i)
      invariant forall j | 0 <= j < dev.store.Length && !(off <= j < off + len) :: dev.store[j] == old(dev.store[j])
    {
      ghost var c1, done := dev.chip, dev.store[off..off + i];
      StreamOne(dev, off + i, wire(point + i), base, n, pos + i);
      PlayedNext(wire, point, point + i);
      LogThen(c, c1, dev.chip, Played(wire, point, point + i), Events(wire(point + i)));
      AlongsideTwice(c, c1, dev.chip);
      assert dev.store[off..off + i + 1] == done + [Record(base, f)[pos + i]];
      assert Record(base, f)[pos..pos + i + 1] == Record(base, f)[pos..pos + i] + [Record(base, f)[pos + i]];
      i := i + 1;
    }
  }

  // One of them, after the network has acted.
  method StreamOne(dev: Device, at: nat, w: Pause, ghost base: Addr, ghost n: nat, ghost i: nat)
    requires dev.store.Length >= STORE && at < STORE
    requires RingOf(dev.chip, base, n) && TxSafe(dev.chip) && n < |dev.chip.taken|
    requires dev.chip.taken[n].Fits() && i < dev.chip.taken[n].Total() && Streaming(dev.chip, Wrap(base + i))
    modifies dev`chip, dev.store
    ensures RingOf(dev.chip, base, n) && TxSafe(dev.chip) && Alongside(old(dev.chip), dev.chip)
    ensures Streaming(dev.chip, Wrap(base + i + 1)) && dev.chip.Bsel() == old(dev.chip).Bsel()
    ensures n < |dev.chip.taken| && dev.chip.taken[n] == old(dev.chip).taken[n]
    ensures dev.store[..] == old(dev.store[..])[at := Record(base, old(dev.chip).taken[n])[i]]
    ensures dev.chip.log == old(dev.chip).log + Events(w)
  {
    hide RingOf, TxSafe, Streaming, Alongside, Drift, Record, Chip.Bsel, Wrap, Chip.Miso, Events;
    ghost var c := dev.chip;
    AlongsideSelf(c);
    Happen(dev, Events(w), base, n);
    DriftFacts(c, dev.chip, base, i, n);
    AlongsideTwice(c, c, dev.chip);
    ghost var d := dev.chip;
    StreamStep(dev.chip, base, n, i);
    var b := dev.SpiRead();
    StreamAlongside(d, dev.chip);
    AlongsideTwice(c, d, dev.chip);
    dev.store[at] := b;
  }

  lemma AlongsideSelf(c: Chip)
    ensures Alongside(c, c)
  {
    hide Evolves;
    Unshown(c, c);
  }

  lemma DriftFacts(c: Chip, d: Chip, base: Addr, i: nat, n: nat)
    requires Drift(c, d) && n < |c.taken| && base + i < 2 * RING
    ensures n < |d.taken| && d.taken[n] == c.taken[n] && d.Bsel() == c.Bsel()
    ensures Streaming(c, Wrap(base + i)) ==> Streaming(d, Wrap(base + i))
  {
  }

  lemma StreamAlongside(c: Chip, d: Chip)
    requires d == c.(bus := d.bus, file := d.file) && forall j | 2 <= j < 128 :: d.file[j] == c.file[j]
    ensures Alongside(c, d) && d.Bsel() == c.Bsel()
    ensures TxSafe(c) ==> TxSafe(d)
  {
    hide Evolves;
    Unshown(c, d);
  }

  // Lengths for which the receive routine keeps its place: the frame fits the buffer, or the
  // length guard turns it away.
  predicate SafeLength(len: nat) { len <= BUFFER_SIZE || len >= 1518 }

  // What rxPkt.ptrAddr holds after frame f at `base` was read: it lies right behind the
  // 1500-byte buffer, so frames of 1501 to 1517 bytes overwrite it.
  function PtrAfter(base: Addr, f: Frame): Word
    requires f.Fits()
  {
    var n := |f.payload|;
    if SafeLength(n) then Next(base, f)
    else if n == 1501 then Pair(f.payload[1500], Hi(Next(base, f)))
    else Pair(f.payload[1500], f.payload[1501])
  }

  // The value written to ERXRDPT, odd for an even pointer; never 0 - 1.
  function Release(ptr: Word): Word { if ptr == RX_START then RX_END else ptr - 1 }

  // The points at which the network may act: the two bytes of ERDPT, the start of the stream, its
  // 6 + len bytes, and the two bytes of ERXRDPT.
  function ReceivePoints(len: nat): nat { if len < 1518 then 11 + len else 11 }

  method EtherReceive(dev: Device, wire: nat -> Pause, ghost n: nat) returns (ok: bool)
    requires Ready(dev) && Ptr(dev) < RING
    requires RingOf(dev.chip, Ptr(dev), n) && n < |dev.chip.taken|
    modifies dev`chip, dev`bnBank, dev.store
    ensures Ready(dev) && Alongside(old(dev.chip), dev.chip)
    ensures old(dev.chip).taken[n].Fits()
    ensures var f := old(dev.chip).taken[n];
            && ok == (|f.payload| < 1518)
            && Pair(dev.store[RX_LEN], dev.store[RX_LEN + 1]) == (if ok then |f.payload| else 0)
            && (ok ==> dev.store[RX_DATA..RX_DATA + |f.payload|] == f.payload)
            && dev.store[NXT_PKT..RX_LEN] == Record(old(Ptr(dev)), f)[..6]
            && Ptr(dev) == PtrAfter(old(Ptr(dev)), f)
            && dev.chip.Erxrdpt() == Release(Ptr(dev))
            && (SafeLength(|f.payload|) ==> Ptr(dev) < RING && RingOf(dev.chip, Ptr(dev), n + 1))
            && forall j | TX_LEN <= j < dev.store.Length && (SafeLength(|f.payload|) || RX_DATA + |f.payload| <= j) ::
                 dev.store[j] == old(dev.store[j])
    ensures dev.chip.log == old(dev.chip).log + Played(wire, 0, ReceivePoints(|old(dev.chip).taken[n].payload|))
    ensures dev.bnBank == old(dev.bnBank)
  {
    hide RingOf, TxSafe, Alongside, Record, Chip.Bsel, Release, Streaming, Chip.Erxrdpt, PtrAfter, SafeLength;
    hide Played, Events;
    ghost var base: Addr, c := Ptr(dev), dev.chip;
    var len := FetchHeader(dev, wire, base, n, c);
    ok := FetchData(dev, len, wire, base, n, c);
    ghost var kept := dev.store[..];
    len := if ok then len else 0;
    PlayedOn(wire, 0, 9, 9 + len);
    PlayedOn(wire, 0, 9 + len, 11 + len);
    PlayedTwo(wire, 9 + len);
    Advance(dev, wire(9 + len), wire(10 + len), base, n, c);
    assert dev.store[..] == kept;
  }

  // The length guard and the frame itself.
  method FetchData(dev: Device, len: Word, wire: nat -> Pause, ghost base: Addr, ghost n: nat, ghost c: Chip)
    returns (ok: bool)
    requires dev.store.Length >= STORE && Weak(dev.View()) && n < |c.taken|
    requires RingOf(dev.chip, base, n) && TxSafe(dev.chip) && Alongside(c, dev.chip)
    requires n < |dev.chip.taken| && dev.chip.taken[n] == c.taken[n] && c.taken[n].Fits()
    requires len == |c.taken[n].payload| && Streaming(dev.chip, Wrap(base + 6)) && Ptr(dev) == Next(base, c.taken[n])
    requires Pair(dev.store[RX_LEN], dev.store[RX_LEN + 1]) == len
    modifies dev`chip, dev.store
    ensures dev.chip.log == old(dev.chip).log + Played(wire, 9, if ok then 9 + len else 9)
    ensures RingOf(dev.chip, base, n) && TxSafe(dev.chip) && Alongside(c, dev.chip) && Weak(dev.View())
    ensures ok == (len < 1518)
    ensures Pair(dev.store[RX_LEN], dev.store[RX_LEN + 1]) == if ok then len else 0
    ensures ok ==> dev.store[RX_DATA..RX_DATA + len] == c.taken[n].payload
    ensures Ptr(dev) == PtrAfter(base, c.taken[n])
    ensures dev.store[..RX_LEN] == old(dev.store[..RX_LEN])
    ensures SafeLength(len) ==> PtrAfter(base, c.taken[n]) == Next(base, c.taken[n])
    ensures forall j | TX_LEN <= j < dev.store.Length && (SafeLength(len) || RX_DATA + len <= j) ::
              dev.store[j] == old(dev.store[j])
  {
    hide RingOf, TxSafe, Alongside, Record, Chip.Bsel, Streaming, PtrAfter, SafeLength, Pair, Lo, Hi;
    ghost var f := c.taken[n];
    ok := len < 1518;
    var count := if ok then len else 0;
    if !ok { dev.store[RX_LEN], dev.store[RX_LEN + 1] := 0, 0; PairValue(0, 0); }
    PayloadBytes(base, f, count);
    PairBytes(dev.store[PTR_ADDR], dev.store[PTR_ADDR + 1]);
    Spill(len, count);
    ghost var c1 := dev.chip;
    StreamInto(dev, RX_DATA, count, wire, 9, base, n, 6);
    AlongsideTwice(c, c1, dev.chip);
    ghost var data := dev.store[RX_DATA..RX_DATA + count];
    assert count > 1500 ==> data[1500] == dev.store[PTR_ADDR];
    assert count > 1501 ==> data[1501] == dev.store[PTR_ADDR + 1];
    Overlap(base, f, Ptr(dev));
    forall j | TX_LEN <= j < dev.store.Length && (SafeLength(len) || RX_DATA + len <= j)
      ensures dev.store[j] == old(dev.store[j])
    {
      assert !(RX_DATA <= j < RX_DATA + count);
    }
  }

  // The start of the receive routine, up to the length in the status vector.
  method FetchHeader(dev: Device, wire: nat -> Pause, ghost base: Addr, ghost n: nat, ghost c: Chip)
    returns (len: Word)
    requires Ready(dev) && Ptr(dev) == base && n < |c.taken|
    requires RingOf(dev.chip, base, n) && dev.chip == c
    modifies dev`chip, dev`bnBank, dev.store
    ensures RingOf(dev.chip, base, n) && TxSafe(dev.chip) && Alongside(c, dev.chip) && Weak(dev.View())
    ensures n < |dev.chip.taken| && dev.chip.taken[n] == c.taken[n] && c.taken[n].Fits()
    ensures len == |c.taken[n].payload| && Streaming(dev.chip, Wrap(base + 6))
    ensures Pair(dev.store[RX_LEN], dev.store[RX_LEN + 1]) == len
    ensures Ptr(dev) == Next(base, c.taken[n])
    ensures dev.store[NXT_PKT..RX_LEN] == Record(base, c.taken[n])[..6]
    ensures forall j | TX_LEN <= j < dev.store.Length :: dev.store[j] == old(dev.store[j])
    ensures dev.bnBank == old(dev.bnBank) && dev.chip.log == c.log + Played(wire, 0, 9)
  {
    hide RingOf, TxSafe, Alongside, Record, Chip.Bsel, Streaming, Played;
    PlayedOn(wire, 0, 3, 5);
    PlayedOn(wire, 0, 5, 9);
    ghost var f := c.taken[n];
    OldestBytes(c, base, n);
    AlongsideSelf(c);
    PointAndStart(dev, wire, base, n, c);
    ghost var c1 := dev.chip;
    AlongsideKept(c, c1, n);
    StreamInto(dev, NXT_PKT, 2, wire, 3, base, n, 0);
    AlongsideTwice(c, c1, dev.chip);
    dev.store[PTR_ADDR], dev.store[PTR_ADDR + 1] := dev.store[NXT_PKT], dev.store[NXT_PKT + 1];
    NextBytes(base, f, dev.store[NXT_PKT..NXT_PKT + 2]);
    len := FetchStatus(dev, wire, base, n, c);
    assert dev.store[NXT_PKT..RX_LEN] == dev.store[NXT_PKT..NXT_PKT + 2] + dev.store[RX_STAT..RX_LEN];
    assert Record(base, f)[..6] == Record(base, f)[0..2] + Record(base, f)[2..6];
  }

  // The four bytes of the status vector, and the length in them.
  method FetchStatus(dev: Device, wire: nat -> Pause, ghost base: Addr, ghost n: nat, ghost c: Chip)
    returns (len: Word)
    requires dev.store.Length >= STORE && Weak(dev.View()) && n < |c.taken|
    requires RingOf(dev.chip, base, n) && TxSafe(dev.chip) && Alongside(c, dev.chip)
    requires n < |dev.chip.taken| && dev.chip.taken[n] == c.taken[n] && c.taken[n].Fits()
    requires Streaming(dev.chip, Wrap(base + 2))
    modifies dev`chip, dev.store
    ensures RingOf(dev.chip, base, n) && TxSafe(dev.chip) && Alongside(c, dev.chip) && Weak(dev.View())
    ensures n < |dev.chip.taken| && dev.chip.taken[n] == c.taken[n]
    ensures len == |c.taken[n].payload| && Streaming(dev.chip, Wrap(base + 6))
    ensures Pair(dev.store[RX_LEN], dev.store[RX_LEN + 1]) == len
    ensures dev.store[RX_STAT..RX_LEN] == Record(base, c.taken[n])[2..6]
    ensures forall j | 0 <= j < RX_STAT || RX_DATA <= j < dev.store.Length :: dev.store[j] == old(dev.store[j])
    ensures dev.chip.log == old(dev.chip).log + Played(wire, 5, 9)
  {
    hide RingOf, TxSafe, Alongside, Record, Chip.Bsel, Streaming, Played;
    ghost var c1 := dev.chip;
    StreamInto(dev, RX_STAT, 4, wire, 5, base, n, 2);
    AlongsideTwice(c, c1, dev.chip);
    StatusBytes(base, c.taken[n], dev.store[RX_STAT..RX_STAT + 4]);
    dev.store[RX_LEN], dev.store[RX_LEN + 1] := dev.store[RX_STAT], dev.store[RX_STAT + 1];
    len := Pair(dev.store[RX_LEN], dev.store[RX_LEN + 1]);
  }

  // The read pointer is set to the driver's own pointer and streaming begins there.
  method PointAndStart(dev: Device, wire: nat -> Pause, ghost base: Addr, ghost n: nat, ghost c: Chip)
    requires Ready(dev) && Ptr(dev) == base && RingOf(dev.chip, base, n) && Alongside(c, dev.chip)
    modifies dev`chip, dev`bnBank
    ensures RingOf(dev.chip, base, n) && TxSafe(dev.chip) && Alongside(c, dev.chip) && Weak(dev.View())
    ensures Streaming(dev.chip, base)
    ensures dev.bnBank == old(dev.bnBank) && dev.chip.log == old(dev.chip).log + Played(wire, 0, 3)
  {
    hide RingOf, TxSafe, Alongside, Chip.Bsel, Streaming, Played, Events;
    PlayedTwo(wire, 0);
    PlayedOn(wire, 0, 2, 3);
    PlayedTwo(wire, 2);
    ghost var c0 := dev.chip;
    PointTo(dev, wire(0), wire(1), base, n, c);
    ghost var c1 := dev.chip;
    Happen(dev, Events(wire(2)), base, n);
    LogThen(c0, c1, dev.chip, Played(wire, 0, 2), Played(wire, 2, 3));
    AlongsideTwice(c, c1, dev.chip);
    SamePointer(c1, dev.chip);
    StartStream(dev, base, n, c);
  }

  method PointTo(dev: Device, w: Pause, w': Pause, ghost base: Addr, ghost n: nat, ghost c: Chip)
    requires Ready(dev) && Ptr(dev) == base && RingOf(dev.chip, base, n) && Alongside(c, dev.chip)
    modifies dev`chip, dev`bnBank
    ensures Ready(dev) && RingOf(dev.chip, base, n) && Alongside(c, dev.chip) && dev.chip.Erdpt() == base
    ensures dev.bnBank == old(dev.bnBank) && dev.chip.log == old(dev.chip).log + (Events(w) + Events(w'))
  {
    hide RingOf, TxSafe, Alongside, Events;
    ghost var c0 := dev.chip;
    WritePointer(dev, ERDPTL, dev.store[PTR_ADDR], w, base, n, c);
    ghost var c1 := dev.chip;
    WritePointer(dev, ERDPTH, dev.store[PTR_ADDR + 1], w', base, n, c);
    LogThen(c0, c1, dev.chip, Events(w), Events(w'));
  }

  lemma AlongsideKept(c: Chip, d: Chip, n: nat)
    requires Alongside(c, d) && n < |c.taken|
    ensures n < |d.taken| && d.taken[n] == c.taken[n]
  {
  }

  lemma PayloadBytes(base: Addr, f: Frame, len: nat)
    requires f.Fits() && len <= |f.payload|
    ensures Record(base, f)[6..6 + len] == f.payload[..len]
  {
  }

  // The end of the receive routine: chip select goes up and ERXRDPT follows the pointer.
  method Advance(dev: Device, w: Pause, w': Pause, ghost base: Addr, ghost n: nat, ghost c: Chip)
    requires dev.store.Length >= STORE && Weak(dev.View())
    requires RingOf(dev.chip, base, n) && Alongside(c, dev.chip) && TxSafe(dev.chip) && n < |c.taken|
    modifies dev`chip, dev`bnBank
    ensures Ready(dev) && Alongside(c, dev.chip) && c.taken[n].Fits()
    ensures dev.chip.Erxrdpt() == Release(Ptr(dev))
    ensures var next := Next(base, c.taken[n]);
            Ptr(dev) == next ==> RingOf(dev.chip, next, n + 1)
    ensures dev.bnBank == old(dev.bnBank) && dev.chip.log == old(dev.chip).log + (Events(w) + Events(w'))
  {
    hide RingOf, TxSafe, Alongside, Chip.Bsel;
    StopStream(dev, base, n, c);
    var load := Release(Ptr(dev));
    PairSplits(load);
    WritePointer(dev, ERXRDPTL, Lo(load), w, base, n, c);
    ReleaseSpace(dev, Hi(load), w', base, n, c);
  }

  lemma NextBytes(base: Addr, f: Frame, next: seq<Byte>)
    requires f.Fits() && next == Record(base, f)[0..2]
    ensures Pair(next[0], next[1]) == Next(base, f)
  {
    PairSplits(Next(base, f));
  }

  lemma StatusBytes(base: Addr, f: Frame, status: seq<Byte>)
    requires f.Fits() && status == Record(base, f)[2..6]
    ensures Pair(status[0], status[1]) == |f.payload|
  {
    PairSplits(|f.payload|);
  }

  // The network acts, then the high byte of ERXRDPT is written and takes effect with the low
  // byte; when the pair is the predecessor of the next frame, the oldest frame is gone.
  method ReleaseSpace(dev: Device, v: Byte, w: Pause, ghost base: Addr, ghost n: nat, ghost c: Chip)
    requires Ready(dev) && RingOf(dev.chip, base, n) && Alongside(c, dev.chip) && n < |c.taken|
    modifies dev`chip, dev`bnBank
    ensures Ready(dev) && Alongside(c, dev.chip) && c.taken[n].Fits()
    ensures dev.chip.Erxrdpt() == Pair(old(dev.chip).latch, v)
    ensures var next := Next(base, c.taken[n]);
            Pair(old(dev.chip).latch, v) == Pred(next) ==> RingOf(dev.chip, next, n + 1)
    ensures dev.bnBank == old(dev.bnBank) && dev.chip.log == old(dev.chip).log + Events(w)
  {
    hide RingOf, TxSafe, Alongside, Do, Perform;
    ghost var c1 := dev.chip;
    Approach(dev, w, base, n);
    AlongsideTwice(c, c1, dev.chip);
    ghost var c2 := dev.chip;
    BankZeroWrite(c2, dev.View(), ERXRDPTH, v, 0x00, 0x10);
    AlreadyThere(dev.View(), Write(ERXRDPTH, v));
    dev.PutByte(ERXRDPTH, v);
    ReleaseKeeps(c, c2, dev.chip, base, n);
    AlongsideTwice(c, c2, dev.chip);
  }

  lemma ReleaseKeeps(o: Chip, c: Chip, d: Chip, base: Addr, n: nat)
    requires RingOf(c, base, n) && Alongside(o, c) && n < |o.taken|
    requires Outside(c, d, 0x00, 0x10) && d.mem == c.mem
    requires forall i | 0 <= i < 0x10 && i != 0x0C && i != 0x0D :: d.file[i] == c.file[i]
    ensures c.taken[n] == o.taken[n] && o.taken[n].Fits()
    ensures Alongside(c, d) && (TxSafe(c) ==> TxSafe(d))
    ensures d.Erxrdpt() == Pred(Next(base, o.taken[n])) ==> RingOf(d, Next(base, o.taken[n]), n + 1)
  {
    hide Tiles, Evolves;
    QuarterBits(c.file[0x1F], d.file[0x1F], 2);
    QuarterBits(c.file[0x1F], d.file[0x1F], 3);
    Unshown(c, d);
    OldestBytes(c, base, n);
    assert c.taken[n..][1..] == c.taken[n + 1..];
    DropKeepsTiles(c.mem, base, c.Erxwrpt(), c.taken[n..]);
  }

  // The network acts, then the driver writes a pointer register that does not free any space.
  method WritePointer(dev: Device, reg: Byte, v: Byte, w: Pause, ghost base: Addr, ghost n: nat, ghost c: Chip)
    requires Ready(dev) && RingOf(dev.chip, base, n) && Alongside(c, dev.chip)
    requires reg == ERDPTL || reg == ERDPTH || reg == ERXRDPTL
    modifies dev`chip, dev`bnBank
    ensures Ready(dev) && RingOf(dev.chip, base, n) && Alongside(c, dev.chip)
    ensures dev.chip.file[0] == if reg == ERDPTL then v else old(dev.chip.file[0])
    ensures dev.chip.file[1] == if reg == ERDPTH then v else old(dev.chip.file[1])
    ensures dev.chip.latch == if reg == ERXRDPTL then v else old(dev.chip.latch)
    ensures dev.bnBank == old(dev.bnBank) && dev.chip.log == old(dev.chip).log + Events(w)
  {
    hide RingOf, TxSafe, Alongside, Do, Perform;
    ghost var c1 := dev.chip;
    Approach(dev, w, base, n);
    AlongsideTwice(c, c1, dev.chip);
    ghost var c2 := dev.chip;
    BankZeroWrite(c2, dev.View(), reg, v, 0x00, 0x10);
    AlreadyThere(dev.View(), Write(reg, v));
    dev.PutByte(reg, v);
    PointerKeeps(c2, dev.chip, reg, base, n);
    AlongsideTwice(c, c2, dev.chip);
  }

  lemma PointerKeeps(c: Chip, d: Chip, reg: Byte, base: Addr, n: nat)
    requires RingOf(c, base, n) && (reg == ERDPTL || reg == ERDPTH || reg == ERXRDPTL)
    requires Outside(c, d, 0x00, 0x10) && d.mem == c.mem
    requires forall i | 2 <= i < 0x10 :: d.file[i] == c.file[i]
    ensures RingOf(d, base, n) && Alongside(c, d) && (TxSafe(c) ==> TxSafe(d))
  {
    hide Evolves, Tiles, Pair, Bit;
    SameRing(c, d, base, n);
    QuarterBits(c.file[0x1F], d.file[0x1F], 2);
    QuarterBits(c.file[0x1F], d.file[0x1F], 3);
    Unshown(c, d);
  }

  // A safe frame stays inside the receive part of the store.
  lemma Spill(len: Word, count: nat)
    requires count == if len < 1518 then len else 0
    ensures count <= len && RX_DATA + count <= STORE
    ensures SafeLength(len) ==> RX_DATA + count <= TX_LEN
  {
  }

  // The pointer after the data has been stored in front of it, and partly over it.
  lemma Overlap(base: Addr, f: Frame, p: Word)
    requires f.Fits()
    requires var n, next := |f.payload|, Next(base, f);
             p == Pair(if 1500 < n < 1518 then f.payload[1500] else Lo(next),
                       if 1501 < n < 1518 then f.payload[1501] else Hi(next))
    ensures p == PtrAfter(base, f)
    ensures SafeLength(|f.payload|) ==>
              PtrAfter(base, f) == Next(base, f) && (|f.payload| <= BUFFER_SIZE || |f.payload| >= 1518)
  {
    hide Pair;
    PairSplits(Next(base, f));
  }

  method StopStream(dev: Device, ghost base: Addr, ghost n: nat, ghost c: Chip)
    requires RingOf(dev.chip, base, n) && Alongside(c, dev.chip) && TxSafe(dev.chip)
    requires Weak(dev.View()) && dev.store.Length >= STORE
    modifies dev`chip
    ensures Ready(dev) && RingOf(dev.chip, base, n) && Alongside(c, dev.chip) && dev.chip.log == old(dev.chip).log
  {
    hide Tiles, Evolves;
    ghost var c1 := dev.chip;
    dev.ChipDeselect();
    SameRing(c1, dev.chip, base, n);
    BusOnly(c1, dev.chip);
    AlongsideTwice(c, c1, dev.chip);
  }

  lemma BusOnly(c: Chip, d: Chip)
    requires d == c.(bus := d.bus)
    ensures Alongside(c, d) && (TxSafe(c) ==> TxSafe(d))
  {
    hide Evolves;
    Unshown(c, d);
  }

  lemma SamePointer(c: Chip, d: Chip)
    requires Drift(c, d)
    ensures d.Erdpt() == c.Erdpt() && d.bus == c.bus
    ensures forall b: Bank :: Weak(Port(c, b)) ==> Weak(Port(d, b))
  {
  }

  // Selects the chip and sends the read-buffer command.
  method StartStream(dev: Device, ghost base: Addr, ghost n: nat, ghost c: Chip)
    requires Ready(dev) && RingOf(dev.chip, base, n) && Alongside(c, dev.chip) && dev.chip.Erdpt() == base
    modifies dev`chip
    ensures RingOf(dev.chip, base, n) && Alongside(c, dev.chip) && TxSafe(dev.chip)
    ensures Streaming(dev.chip, base) && dev.chip.Bsel() == old(dev.chip).Bsel()
    ensures dev.chip.log == old(dev.chip).log
  {
    hide Tiles, Evolves, Alongside, TxSafe;
    ghost var c1 := dev.chip;
    dev.ChipSelect();
    dev.SpiWrite(RBM * 0x20 + BUFFER);
    SameRing(c1, dev.chip, base, n);
    BusOnly(c1, dev.chip);
    AlongsideTwice(c, c1, dev.chip);
  }

  // Exactly the safe lengths keep the pointer on the next frame whatever the frame contains.
  lemma PointerKeptExactlyForSafeLengths(len: nat)
    requires len + 8 < RING
    ensures SafeLength(len) <==>
            forall base: Addr, f: Frame | f.Fits() && |f.payload| == len && base % 2 == 0 ::
              PtrAfter(base, f) == Next(base, f)
  {
    if !SafeLength(len) {
      var f := Frame(seq(len, _ => 1), (0, 0), 0);
      assert f.Fits();
      PairValue(1, 1);
      PairValue(1, Hi(Next(0, f)));
      assert PtrAfter(0, f) % 2 == 1;
      assert Next(0, f) % 2 == 0;
    }
  }

  // As long as the driver keeps its place ERXRDPT is an odd ring address, right before the
  // oldest unread frame.
  lemma FreePointer(c: Chip, base: Addr, n: nat)
    requires RingOf(c, base, n)
    ensures c.Erxrdpt() % 2 == 1 && c.Erxrdpt() <= RX_END && Wrap(c.Erxrdpt() + 1) == base
  {
    assert base % 2 == 0 && c.Erxrdpt() == Pred(base);
    hide RingOf, Chip.Erxrdpt;
    OddBefore(base);
  }

  lemma OddBefore(a: Addr)
    requires a % 2 == 0
    ensures Pred(a) % 2 == 1 && Wrap(Pred(a) + 1) == a
  {
  }

  // The errata rule: after a safe frame ERXRDPT is odd, and the predecessor of the pointer.
  lemma ReleaseIsOdd(base: Addr, f: Frame)
    requires f.Fits() && base % 2 == 0 && SafeLength(|f.payload|)
    ensures var p := PtrAfter(base, f);
            p < RING && p % 2 == 0 && Release(p) == Pred(p) && Release(p) % 2 == 1 && Release(p) <= RX_END
  {
  }

  // ----- the packet handler of the main loop, and whole runs -----

  datatype Outcome = Delivered(bytes: seq<Byte>) | Rejected | NoBuffer

  // What becomes of one frame: too long a one is turned away, and the others are handed on if a
  // buffer can be had.
  function OutcomeOf(f: Frame, alloc: bool): Outcome
  {
    if |f.payload| >= 1518 then Rejected else if alloc then Delivered(f.payload) else NoBuffer
  }

  predicate Served(f: Frame, o: Outcome) { o == OutcomeOf(f, true) || o == OutcomeOf(f, false) }

  // The points of the packet handler: those of the receive and the PKTDEC.
  function HandlePoints(len: nat): nat { ReceivePoints(len) + if SafeLength(len) then 1 else 0 }

  method ClearPacketInterrupt(dev: Device, w: Pause, ghost base: Addr, ghost n: nat)
    requires Ready(dev) && RingOf(dev.chip, base, n) && dev.chip.Packets() > 0
    modifies dev`chip, dev`bnBank
    ensures Ready(dev) && RingOf(dev.chip, base, n)
    ensures old(dev.chip.taken) <= dev.chip.taken && TxHistory(old(dev.chip), dev.chip)
    ensures dev.chip.Packets() == old(dev.chip.Packets()) - 1 + |dev.chip.taken| - |old(dev.chip.taken)|
    ensures dev.chip.mii == old(dev.chip.mii) && Takes(old(dev.chip), Set(ECON2, 0x40), dev.chip)
    ensures dev.bnBank == old(dev.bnBank) && dev.chip.Bsel() == 0
    ensures LinkStays(old(dev.chip), dev.chip) && dev.chip.log == old(dev.chip).log + Events(w)
  {
    hide RingOf, TxSafe, Do, Perform, Flat, TxHistory, Weak, Chip.Bsel, Evolves, Takes, LinkStays;
    ghost var c0 := dev.chip;
    Approach(dev, w, base, n);
    ghost var c := dev.chip;
    NearingCounts(c0, c);
    CountsDown(c);
    AccessTakes(c, Set(ECON2, 0x40));
    AtBankZero(dev.View(), Set(ECON2, 0x40));
    dev.PutSet(ECON2, 0x40);
    TakesAfter(c0, c, Set(ECON2, 0x40), dev.chip);
    LinkTwice(c0, c, dev.chip);
    RingCounted(c, dev.chip, base, n);
    TxHistoryTwice(c0, c, dev.chip);
  }

  lemma NearingCounts(c: Chip, d: Chip)
    requires Nearing(c, d)
    ensures c.taken <= d.taken && TxHistory(c, d) && d.mii == c.mii && d.bus == c.bus && Evolves(c, d)
    ensures d.Packets() - c.Packets() == |d.taken| - |c.taken|
    ensures LinkStays(c, d)
  {
  }

  lemma LinkTwice(a: Chip, b: Chip, c: Chip)
    requires LinkStays(a, b) && LinkStays(b, c)
    ensures LinkStays(a, c)
  {
  }

  lemma TxHistoryTwice(a: Chip, b: Chip, c: Chip)
    requires TxHistory(a, b) && TxHistory(b, c)
    ensures TxHistory(a, c)
  {
  }

  // enc28j60_clear_interrupt(PKTIF)
  method CountDown(dev: Device)
    requires Ready(dev) && dev.chip.Packets() > 0
    modifies dev`chip, dev`bnBank
    ensures Ready(dev) && dev.chip.Packets() == old(dev.chip.Packets()) - 1
    ensures TxHistory(old(dev.chip), dev.chip) && Takes(old(dev.chip), Set(ECON2, 0x40), dev.chip)
    ensures dev.chip == old(dev.chip).(file := dev.chip.file) && dev.chip.AutoInc() == old(dev.chip).AutoInc()
    ensures forall i | 0 <= i < 128 && i !in {0x1E, 0x1F, 0x39} :: dev.chip.file[i] == old(dev.chip).file[i]
    ensures dev.bnBank == old(dev.bnBank) && dev.chip.Bsel() == 0
    ensures LinkStays(old(dev.chip), dev.chip)
  {
    hide TxSafe, Do, TxHistory, Takes, LinkStays;
    CountsDown(dev.chip);
    AccessTakes(dev.chip, Set(ECON2, 0x40));
    Reaches(dev.View(), Set(ECON2, 0x40));
    dev.BitFieldSet(ECON2, 0x40);
  }

  lemma RingCounted(c: Chip, d: Chip, base: Addr, n: nat)
    requires RingOf(c, base, n) && d == c.(file := d.file) && d.AutoInc() == c.AutoInc()
    requires forall i | 0 <= i < 128 && i !in {0x1E, 0x1F, 0x39} :: d.file[i] == c.file[i]
    ensures RingOf(d, base, n)
  {
    hide Tiles;
  }

  lemma CountsDown(c: Chip)
    requires c.Packets() > 0
    ensures var d := Flat(BankCache.Select(c, BANK_0), Set(ECON2, 0x40)).0;
            && d.Packets() == c.Packets() - 1 && d.AutoInc() == c.AutoInc() && d.Bsel() == 0
            && d == c.(file := d.file)
            && (forall i | 0 <= i < 128 && i !in {0x1E, 0x1F, 0x39} :: d.file[i] == c.file[i])
            && (TxSafe(c) ==> TxSafe(d) && TxHistory(c, d))
    ensures LinkStays(c, Flat(BankCache.Select(c, BANK_0), Set(ECON2, 0x40)).0)
  {
    hide Or, AndNot, Bit, TxHistory;
    var e := c.file[0x1E];
    MaskBits();
    OrBit(e, 0x40, 6);
    OrBit(e, 0x40, 7);
    AndNotBit(SetBits(e, 0x40), 0x40, 7);
    SelectSelects(c, BANK_0);
    QuarterBits(BankCache.Select(c, BANK_0).file[0x1F], c.file[0x1F], 3);
    if TxSafe(c) { TxUntouched(c, Flat(BankCache.Select(c, BANK_0), Set(ECON2, 0x40)).0); }
  }

  lemma AlongsideCounts(c: Chip, d: Chip, n: nat)
    requires Alongside(c, d) && n < |c.taken|
    ensures c.taken <= d.taken && d.taken[n] == c.taken[n]
    ensures d.Packets() - c.Packets() == |d.taken| - |c.taken| && TxHistory(c, d) && d.mii == c.mii
    ensures Evolves(c, d)
    ensures LinkStays(c, d)
  {
  }

  // One pending frame: received, counted down, and handed on if a buffer can be had. The
  // count goes down once whether or not the frame was good.
  method HandlePacket(dev: Device, wire: nat -> Pause, alloc: bool, ghost n: nat)
    returns (r: Outcome, safe: bool)
    requires Ready(dev) && Ptr(dev) < RING && RingOf(dev.chip, Ptr(dev), n)
    requires dev.chip.Packets() == |dev.chip.taken| - n > 0
    modifies dev`chip, dev`bnBank, dev.store
    ensures old(dev.chip.taken) <= dev.chip.taken && dev.store.Length >= STORE
    ensures TxHistory(old(dev.chip), dev.chip)
    ensures r == OutcomeOf(dev.chip.taken[n], alloc)
    ensures dev.chip.log == old(dev.chip).log + Played(wire, 0, HandlePoints(|dev.chip.taken[n].payload|))
    ensures safe == SafeLength(|dev.chip.taken[n].payload|)
    ensures safe ==> Ready(dev) && Ptr(dev) < RING && RingOf(dev.chip, Ptr(dev), n + 1)
    ensures dev.chip.Packets() == |dev.chip.taken| - (n + 1) && dev.chip.mii == old(dev.chip.mii)
    ensures dev.bnBank == old(dev.bnBank) && dev.chip.Bsel() == 0
    ensures forall v, phy | D.WellPlaced(D.Fetched(v)) ::
              Leads(old(dev.chip), D.Masked(v, D.PKTIF), dev.chip, D.Input(v, false), 2, phy)
    ensures LinkStays(old(dev.chip), dev.chip)
  {
    hide RingOf, TxSafe, Alongside, TxHistory, Evolves, Takes, Leads, Chip.Bsel, LinkStays, Played, Events;
    ghost var c := dev.chip;
    var ok := EtherReceive(dev, wire, n);
    var len := Pair(dev.store[RX_LEN], dev.store[RX_LEN + 1]);
    safe := !ok || len <= BUFFER_SIZE;
    AlongsideCounts(c, dev.chip, n);
    ghost var d := dev.chip;
    PlayedOn(wire, 0, 11 + len, 12 + len);
    PlayedTwo(wire, 11 + len);
    if safe { ClearPacketInterrupt(dev, wire(11 + len), Ptr(dev), n + 1); } else { CountDown(dev); }
    TxHistoryTwice(c, d, dev.chip);
    LinkTwice(c, d, dev.chip);
    forall v, phy | D.WellPlaced(D.Fetched(v))
      ensures Leads(c, D.Masked(v, D.PKTIF), dev.chip, D.Input(v, false), 2, phy)
    {
      PacketLeads(c, d, dev.chip, v, phy);
    }
    r := if !ok then Rejected else if alloc then Delivered(dev.store[RX_DATA..RX_DATA + len]) else NoBuffer;
  }

  datatype Job = Network(es: seq<Event>) | Handle(wire: nat -> Pause, alloc: bool)

  // What one job makes of the chip: the network does just this; the handler serves the oldest
  // frame, number k, if there is one, and otherwise does nothing.
  predicate Did(job: Job, c: Chip, k: nat, d: Chip, rs: seq<Outcome>)
  {
    match job
    case Network(es) => d == PlayAll(c, es) && rs == []
    case Handle(wire, alloc) =>
      if c.Packets() == 0 then d == c && rs == []
      else k < |c.taken| && rs == [OutcomeOf(c.taken[k], alloc)]
           && d.log == c.log + Played(wire, 0, HandlePoints(|c.taken[k].payload|))
           && c.taken <= d.taken && d.Packets() == c.Packets() - 1 + |d.taken| - |c.taken| && TxHistory(c, d)
  }

  method RunJob(dev: Device, job: Job, ghost n: nat) returns (rs: seq<Outcome>, safe: bool)
    requires Ready(dev) && Ptr(dev) < RING && RingOf(dev.chip, Ptr(dev), n)
    requires dev.chip.Packets() == |dev.chip.taken| - n
    modifies dev`chip, dev`bnBank, dev.store
    ensures old(dev.chip.taken) <= dev.chip.taken && n + |rs| <= |dev.chip.taken|
    ensures Did(job, old(dev.chip), n, dev.chip, rs) && dev.chip.Packets() == |dev.chip.taken| - (n + |rs|)
    ensures dev.store.Length >= STORE && safe ==
            (rs == [] || SafeLength(|dev.chip.taken[n].payload|))
    ensures safe ==> Ready(dev) && Ptr(dev) < RING && RingOf(dev.chip, Ptr(dev), n + |rs|)
  {
    hide RingOf, TxSafe, SafeLength, Played, Leads, TxHistory, LinkStays;
    rs, safe := [], true;
    match job {
      case Network(es) => Happen(dev, es, Ptr(dev), n);
      case Handle(wire, alloc) =>
        if dev.chip.Packets() > 0 {
          var r;
          r, safe := HandlePacket(dev, wire, alloc, n);
          rs := [r];
        }
    }
  }

  function Handles(jobs: seq<Job>): nat
    decreases jobs
  {
    if jobs == [] then 0 else Handles(jobs[..|jobs| - 1]) + if jobs[|jobs| - 1].Handle? then 1 else 0
  }

  function Min(a: int, b: int): int { if a <= b then a else b }

  // A run job by job, and the chips it goes through.
  ghost predicate Traced(jobs: seq<Job>, n: nat, chips: seq<Chip>, rs: seq<Outcome>)
    decreases jobs
  {
    && |chips| == |jobs| + 1
    && var last := |jobs| - 1;
       if jobs == [] then rs == []
       else exists k | 0 <= k <= |rs| ::
         && Traced(jobs[..last], n, chips[..|jobs|], rs[..k])
         && Did(jobs[last], chips[last], n + k, chips[|jobs|], rs[k..])
  }

  lemma TracedOn(jobs: seq<Job>, n: nat, chips: seq<Chip>, rs: seq<Outcome>, job: Job, d: Chip, more: seq<Outcome>)
    requires Traced(jobs, n, chips, rs) && Did(job, chips[|jobs|], n + |rs|, d, more)
    ensures Traced(jobs + [job], n, chips + [d], rs + more)
  {
    hide Did;
    var js, cs, all, k := jobs + [job], chips + [d], rs + more, |rs|;
    assert js[..|jobs|] == jobs && cs[..|js|] == chips && all[..k] == rs && all[k..] == more;
  }

  // Any interleaving of network activity and calls of the packet handler: frames come out
  // once each, in the order they were accepted and with their bytes intact, and what was
  // accepted is what was consumed plus what EPKTCNT still counts. Every call of the handler serves
  // a frame as long as one is there. The run goes to its end unless a frame of 1501 to 1517
  // bytes is consumed.
  method RunReceiver(dev: Device, jobs: seq<Job>, ghost n: nat)
    returns (rs: seq<Outcome>, done: nat, safe: bool, ghost chips: seq<Chip>)
    requires Ready(dev) && Ptr(dev) < RING && RingOf(dev.chip, Ptr(dev), n)
    requires dev.chip.Packets() == |dev.chip.taken| - n
    modifies dev`chip, dev`bnBank, dev.store
    ensures old(dev.chip.taken) <= dev.chip.taken && n + |rs| <= |dev.chip.taken|
    ensures forall i | 0 <= i < |rs| :: Served(dev.chip.taken[n + i], rs[i])
    ensures done <= |jobs| && |chips| == done + 1 && Traced(jobs[..done], n, chips, rs)
    ensures chips[0] == old(dev.chip) && chips[done] == dev.chip
    ensures |rs| >= Min(Handles(jobs[..done]), |old(dev.chip.taken)| - n)
    ensures dev.chip.Packets() == |dev.chip.taken| - (n + |rs|) && dev.store.Length >= STORE
    ensures !safe ==> rs != [] && !SafeLength(|dev.chip.taken[n + |rs| - 1].payload|)
    ensures safe ==> done == |jobs| && Ready(dev) && Ptr(dev) < RING && RingOf(dev.chip, Ptr(dev), n + |rs|)
  {
    hide RingOf, TxSafe, SafeLength, Served, Did, Traced;
    rs, done, safe, chips := [], 0, true, [dev.chip];
    assert Traced(jobs[..0], n, chips, rs) by { NothingTraced(n, dev.chip); }
    while done < |jobs|
      invariant 0 <= done <= |jobs| && safe
      invariant Ready(dev) && Ptr(dev) < RING && RingOf(dev.chip, Ptr(dev), n + |rs|)
      invariant old(dev.chip.taken) <= dev.chip.taken && n + |rs| <= |dev.chip.taken|
      invariant dev.chip.Packets() == |dev.chip.taken| - (n + |rs|)
      invariant forall i | 0 <= i < |rs| :: Served(dev.chip.taken[n + i], rs[i])
      invariant |chips| == done + 1 && chips[0] == old(dev.chip) && chips[done] == dev.chip
      invariant Traced(jobs[..done], n, chips, rs)
      invariant |rs| >= Min(Handles(jobs[..done]), |old(dev.chip.taken)| - n)
    {
      ghost var c := dev.chip;
      assert jobs[..done + 1] == jobs[..done] + [jobs[done]];
      var more;
      more, safe := RunJob(dev, jobs[done], n + |rs|);
      DidServe(jobs[done], c, n + |rs|, dev.chip, more);
      TracedOn(jobs[..done], n, chips, rs, jobs[done], dev.chip, more);
      chips, rs, done := chips + [dev.chip], rs + more, done + 1;
      if !safe { return; }
    }
  }

  lemma NothingTraced(n: nat, c: Chip)
    ensures Traced([], n, [c], [])
  {
  }

  lemma DidServe(job: Job, c: Chip, k: nat, d: Chip, rs: seq<Outcome>)
    requires Did(job, c, k, d, rs)
    ensures |rs| == if job.Handle? && c.Packets() > 0 then 1 else 0
    ensures rs != [] ==> k < |c.taken| && Served(c.taken[k], rs[0])
  {
    hide Played, TxHistory;
  }

  // Start-up leaves an empty ring.
  lemma EmptyRing(c: Chip)
    requires c.Erxst() == RX_START && c.Erxnd() == RX_END && c.AutoInc()
    requires c.Erxwrpt() == RX_START && c.Erxrdpt() == RX_END
    ensures RingOf(c, RX_START, |c.taken|)
  {
    assert c.taken[|c.taken|..] == [];
    assert ReadRing(c.mem, RX_START, 0) == [];
  }

  lemma StartedRing(c: Chip, d: Chip)
    requires Started(c, d)
    ensures RingOf(d, RX_START, |c.taken|) && TxSafe(d) && d.taken == c.taken && d.Packets() == 0
  {
    EmptyRing(d);
  }

  // The same from power-up: the driver starts the chip, and then anything may happen. Wherever
  // such a run stands, ERXRDPT is odd and right before the driver's pointer.
  method RunFromStart(dev: Device, jobs: seq<Job>)
    returns (rs: seq<Outcome>, done: nat, safe: bool, ghost chips: seq<Chip>)
    requires dev.Quiet() && dev.store.Length >= STORE && Ptr(dev) == RX_START
    modifies dev`chip, dev`bnBank, dev.store
    ensures var n := |old(dev.chip.taken)|;
            && old(dev.chip.taken) <= dev.chip.taken && n + |rs| <= |dev.chip.taken|
            && (forall i | 0 <= i < |rs| :: Served(dev.chip.taken[n + i], rs[i]))
            && done <= |jobs| && |chips| == done + 1 && Traced(jobs[..done], n, chips, rs)
            && Started(old(dev.chip), chips[0]) && chips[done] == dev.chip
            && dev.chip.Packets() == |dev.chip.taken| - (n + |rs|) && dev.store.Length >= STORE
            && (!safe ==> rs != [] && !SafeLength(|dev.chip.taken[n + |rs| - 1].payload|))
            && (safe ==>
                  && done == |jobs| && Ready(dev) && Ptr(dev) < RING && RingOf(dev.chip, Ptr(dev), n + |rs|)
                  && dev.chip.Erxrdpt() % 2 == 1 && Wrap(dev.chip.Erxrdpt() + 1) == Ptr(dev))
  {
    hide RingOf, Started, TxSafe, SafeLength, Served, Weak, Pair, Chip.Erdpt, Chip.Erxrdpt, Chip.Packets, Traced;
    dev.StartDriver();
    StartedRing(old(dev.chip), dev.chip);
    ghost var n := |dev.chip.taken|;
    rs, done, safe, chips := RunReceiver(dev, jobs, n);
    if safe { FreePointer(dev.chip, Ptr(dev), n + |rs|); }
  }
}
