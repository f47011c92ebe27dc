// Sending: the driver copies a frame behind the receive ring and starts the transmitter; the
// main program refuses a new frame while one is on its way. The network side may act between
// any two SPI transactions, also between the two of one register access, and between any two
// bytes written to the buffer.

module Transmission {
  import opened Bytes
  import opened Ring
  import opened Registers
  import opened Enc28j60
  import opened BankCache
  import opened Driver
  import opened Reception
  import opened ChipRuns
  import D = Dispatch

  // The chip's transmit area.
  function High(c: Chip): (m: seq<Byte>)
    ensures |m| == MEMORY - TX_START
  {
    c.mem[TX_START..]
  }

  // While a frame is being loaded the transmitter is idle and nothing goes out.
  predicate Loading(c: Chip, d: Chip)
  {
    && !c.Sending() && !d.Sending() && d.out == c.out && d.mii == c.mii
    && c.taken <= d.taken && d.Packets() - c.Packets() == |d.taken| - |c.taken|
  }

  // The same as long as none of the flags is touched by the driver.
  ghost predicate Staging(c: Chip, d: Chip) { Loading(c, d) && Evolves(c, d) }

  lemma StagingTwice(a: Chip, b: Chip, c: Chip)
    requires Staging(a, b) && Nearing(b, c)
    ensures Staging(a, c)
    ensures High(c) == High(b) && TxPointers(c) == TxPointers(b) && c.bus == b.bus
  {
    hide Evolves;
    LoadingTwice(a, b, c);
    EvolvesTwice(a, b, c);
  }

  lemma StagingLink(c: Chip, d: Chip)
    requires Staging(c, d)
    ensures LinkStays(c, d)
  {
  }

  // A step of the driver that shows nowhere.
  lemma StagingUnshown(a: Chip, b: Chip, c: Chip)
    requires Staging(a, b) && Loading(a, c)
    requires c.file[EIE] == b.file[EIE] && c.file[EIR] == b.file[EIR]
    requires c.Packets() == b.Packets() && c.Sending() == b.Sending()
    requires c.log == b.log && c.falls == b.falls
    ensures Staging(a, c)
  {
    hide Evolves;
    Unshown(b, c);
    EvolvesTwice(a, b, c);
  }

  lemma LoadingTwice(a: Chip, b: Chip, c: Chip)
    requires Loading(a, b) && (Loading(b, c) || Nearing(b, c))
    ensures Loading(a, c)
    ensures Nearing(b, c) ==> High(c) == High(b) && c.TxFlag() == b.TxFlag() && c.bus == b.bus
    ensures Nearing(b, c) ==> TxPointers(c) == TxPointers(b)
    ensures Nearing(b, c) ==> forall i | 0 <= i < 128 && i !in {0x0E, 0x0F, 0x1C, 0x1F, 0x39} :: c.file[i] == b.file[i]
  {
    hide Bit;
  }

  // The six pointer registers of the transmit side.
  function TxPointers(c: Chip): (s: seq<Byte>)
    ensures |s| == 6
  {
    c.file[0x02..0x08]
  }

  method WriteTxPointer(dev: Device, reg: Byte, v: Byte, w: Pause, ghost base: Addr, ghost n: nat, ghost c: Chip)
    requires Ready(dev) && RingOf(dev.chip, base, n) && Staging(c, dev.chip) && EWRPTL <= reg <= ETXNDH
    modifies dev`chip, dev`bnBank
    ensures Ready(dev) && RingOf(dev.chip, base, n) && Staging(c, dev.chip)
    ensures High(dev.chip) == High(old(dev.chip))
    ensures TxPointers(dev.chip) == TxPointers(old(dev.chip))[reg - 2 := v]
    ensures dev.bnBank == old(dev.bnBank) && dev.chip.log == old(dev.chip).log + Events(w)
  {
    hide RingOf, TxSafe, Staging, Do, Perform, Nearing, High, Events;
    ghost var c1 := dev.chip;
    Approach(dev, w, base, n);
    StagingTwice(c, c1, dev.chip);
    ghost var c2 := dev.chip;
    BankZeroWrite(c2, dev.View(), reg, v, 0x00, 0x10);
    AlreadyThere(dev.View(), Write(reg, v));
    dev.PutByte(reg, v);
    TxPointerKeeps(c, c2, dev.chip, base, n);
  }

  lemma TxPointerKeeps(o: Chip, c: Chip, d: Chip, base: Addr, n: nat)
    requires RingOf(c, base, n) && Staging(o, c) && Outside(c, d, 0x00, 0x10) && d.mem == c.mem
    requires forall i | 8 <= i < 0x10 :: d.file[i] == c.file[i]
    ensures RingOf(d, base, n) && Staging(o, d) && TxSafe(d) && High(d) == High(c)
  {
    hide Evolves;
    SameRing(c, d, base, n);
    QuarterBits(c.file[0x1F], d.file[0x1F], 3);
    StagingUnshown(o, c, d);
  }

  // ----- loading the buffer -----

  // A buffer write is under way and the next byte goes to address p.
  predicate Filling(c: Chip, p: nat)
  {
    c.bus.Body? && c.bus.op == WBM && c.bus.arg == BUFFER && c.Ewrpt() == p && c.AutoInc()
  }

  lemma FillByte(o: Chip, c: Chip, p: nat, b: Byte, base: Addr, n: nat)
    requires Filling(c, p) && TX_START <= p < TX_END && RingOf(c, base, n) && Staging(o, c)
    ensures var d := c.Mosi(b);
            && Filling(d, p + 1) && RingOf(d, base, n) && Staging(o, d) && TxSafe(d) && d.Bsel() == c.Bsel()
            && High(d) == High(c)[p - TX_START := b] && d.log == c.log
            && TxPointers(d)[2..] == TxPointers(c)[2..]
  {
    hide Bit, Tiles, Chip.AutoInc, Chip.Poke, Chip.Masked, Pair, Lo, Hi, Evolves;
    WriteByteEffect(c, p, b);
    PairSplits(p + 1);
    hide Chip.WriteByte;
    var d := c.Mosi(b);
    assert d == c.WriteByte(b).(bus := Body(WBM, BUFFER, c.bus.done + 1));
    assert d.file[0x1E] == c.file[0x1E];
    SameRingBytes(c.mem, d.mem, base, c.Erxwrpt(), c.taken[n..]);
    assert d.AutoInc() == c.AutoInc() by { SameAutoInc(c, d); }
    StagingUnshown(o, c, d);
  }

  lemma SameAutoInc(c: Chip, d: Chip)
    requires d.file[0x1E] == c.file[0x1E]
    ensures d.AutoInc() == c.AutoInc()
  {
  }

  lemma WriteByteEffect(c: Chip, p: nat, b: Byte)
    requires c.Ewrpt() == p && c.AutoInc() && TX_START <= p < TX_END
    ensures c.WriteByte(b) == c.(mem := c.mem[p := b], file := c.file[0x02 := Lo(p + 1)][0x03 := Hi(p + 1)])
  {
    hide Chip.AutoInc;
    WriteAddress(p);
    hide Chip.Ewrpt;
  }

  lemma WriteAddress(p: nat)
    requires TX_START <= p < TX_END
    ensures p % 0x2000 == p && (p + 1) % 0x2000 == p + 1
  {
  }

  // Selects the chip, sends the write-buffer command, the control byte and the frame.
  method Fill(dev: Device, data: seq<Byte>, wire: nat -> Pause, point: nat, ghost base: Addr, ghost n: nat,
              ghost c: Chip)
    requires Ready(dev) && RingOf(dev.chip, base, n) && Staging(c, dev.chip)
    requires |data| <= SEND_LIMIT && dev.chip.Ewrpt() == TX_START
    modifies dev`chip
    ensures Ready(dev) && RingOf(dev.chip, base, n) && Staging(c, dev.chip)
    ensures High(dev.chip)[..1 + |data|] == [0] + data
    ensures TxPointers(dev.chip)[2..] == TxPointers(old(dev.chip))[2..]
    ensures dev.chip.log == old(dev.chip).log + Played(wire, point, point + 2 + |data|)
  {
    hide RingOf, TxSafe, Staging, Drift, High, Filling, Chip.Mosi, TxPointers, Played, Events;
    ghost var c0 := dev.chip;
    StartFill(dev, wire(point), base, n, c);
    PlayedTwo(wire, point);
    ghost var image := [0] + data;
    var i := 0;
    while i < 1 + |data|
      invariant 0 <= i <= 1 + |data|
      invariant RingOf(dev.chip, base, n) && Staging(c, dev.chip) && TxSafe(dev.chip) && Weak(dev.View())
      invariant Filling(dev.chip, TX_START + i)
      invariant High(dev.chip)[..i] == image[..i]
      invariant TxPointers(dev.chip)[2..] == TxPointers(old(dev.chip))[2..]
      invariant dev.chip.log == c0.log + Played(wire, point, point + 1 + i)
    {
      ghost var c1 := dev.chip;
      var b := if i == 0 then 0 else data[i - 1];
      FillOne(dev, TX_START + i, b, wire(point + 1 + i), base, n, c);
      PlayedNext(wire, point, point + 1 + i);
      LogThen(c0, c1, dev.chip, Played(wire, point, point + 1 + i), Events(wire(point + 1 + i)));
      assert High(dev.chip)[..i + 1] == High(c1)[..i] + [b] == image[..i + 1];
      i := i + 1;
    }
    assert image[..1 + |data|] == image;
    StopFill(dev, base, n, c);
  }

  // One byte, after the network has acted.
  method FillOne(dev: Device, p: nat, b: Byte, w: Pause, ghost base: Addr, ghost n: nat, ghost c: Chip)
    requires RingOf(dev.chip, base, n) && Staging(c, dev.chip) && TxSafe(dev.chip) && Weak(dev.View())
    requires Filling(dev.chip, p) && TX_START <= p < TX_END
    modifies dev`chip
    ensures RingOf(dev.chip, base, n) && Staging(c, dev.chip) && TxSafe(dev.chip) && Weak(dev.View())
    ensures Filling(dev.chip, p + 1) && High(dev.chip) == High(old(dev.chip))[p - TX_START := b]
    ensures TxPointers(dev.chip)[2..] == TxPointers(old(dev.chip))[2..]
    ensures dev.chip.log == old(dev.chip).log + Events(w)
  {
    hide RingOf, TxSafe, Staging, Drift, High, Filling, Chip.Mosi, TxPointers, Events;
    ghost var c1 := dev.chip;
    Happen(dev, Events(w), base, n);
    DriftSplit(c1, dev.chip);
    StagingTwice(c, c1, dev.chip);
    FillingKept(c1, dev.chip, p);
    FillByte(c, dev.chip, p, b, base, n);
    dev.SpiWrite(b);
  }

  lemma SamePointers(c: Chip, d: Chip)
    requires Drift(c, d)
    ensures d.Ewrpt() == c.Ewrpt() && forall b: Bank :: Weak(Port(c, b)) ==> Weak(Port(d, b))
  {
  }

  lemma FillingKept(c: Chip, d: Chip, p: nat)
    requires Drift(c, d) && Filling(c, p)
    ensures Filling(d, p) && TxPointers(d) == TxPointers(c) && d.Bsel() == c.Bsel()
  {
  }

  method StartFill(dev: Device, w: Pause, ghost base: Addr, ghost n: nat, ghost c: Chip)
    requires Ready(dev) && RingOf(dev.chip, base, n) && Staging(c, dev.chip) && dev.chip.Ewrpt() == TX_START
    modifies dev`chip
    ensures RingOf(dev.chip, base, n) && Staging(c, dev.chip) && TxSafe(dev.chip) && Weak(dev.View())
    ensures Filling(dev.chip, TX_START) && TxPointers(dev.chip) == TxPointers(old(dev.chip))
    ensures dev.chip.log == old(dev.chip).log + Events(w)
  {
    hide RingOf, TxSafe, Staging, Drift, TxPointers, High, Filling, Events;
    ghost var c0 := dev.chip;
    Happen(dev, Events(w), base, n);
    DriftSplit(c0, dev.chip);
    StagingTwice(c, c0, dev.chip);
    SamePointers(c0, dev.chip);
    OpenBuffer(dev, base, n, c);
  }

  method OpenBuffer(dev: Device, ghost base: Addr, ghost n: nat, ghost c: Chip)
    requires Ready(dev) && RingOf(dev.chip, base, n) && Staging(c, dev.chip) && dev.chip.Ewrpt() == TX_START
    modifies dev`chip
    ensures RingOf(dev.chip, base, n) && Staging(c, dev.chip) && TxSafe(dev.chip) && Weak(dev.View())
    ensures Filling(dev.chip, TX_START) && TxPointers(dev.chip) == TxPointers(old(dev.chip))
    ensures dev.chip.log == old(dev.chip).log
  {
    hide Tiles, Evolves;
    ghost var c1 := dev.chip;
    dev.ChipSelect();
    dev.SpiWrite(WBM * 0x20 + BUFFER);
    StagingUnshown(c, c1, dev.chip);
  }

  method StopFill(dev: Device, ghost base: Addr, ghost n: nat, ghost c: Chip)
    requires RingOf(dev.chip, base, n) && Staging(c, dev.chip) && TxSafe(dev.chip)
    requires Weak(dev.View()) && dev.store.Length >= STORE
    modifies dev`chip
    ensures Ready(dev) && RingOf(dev.chip, base, n) && Staging(c, dev.chip)
    ensures High(dev.chip) == High(old(dev.chip)) && TxPointers(dev.chip) == TxPointers(old(dev.chip))
    ensures dev.chip.log == old(dev.chip).log
  {
    hide Tiles, Evolves;
    ghost var c1 := dev.chip;
    dev.ChipDeselect();
    StagingUnshown(c, c1, dev.chip);
  }

  // ----- starting the transmitter -----

  // Clears EIR.TXIF, or sets one of EIE.TXIE and EIE.INTIE.
  method ChangeFlag(dev: Device, x: Access, w: Pause, ghost base: Addr, ghost n: nat, ghost c: Chip)
    requires Ready(dev) && RingOf(dev.chip, base, n) && Loading(c, dev.chip)
    requires x == Clear(EIR, 0x08) || x == Set(EIE, 0x08) || x == Set(EIE, 0x80)
    modifies dev`chip, dev`bnBank
    ensures Ready(dev) && RingOf(dev.chip, base, n) && Loading(c, dev.chip)
    ensures High(dev.chip) == High(old(dev.chip)) && TxPointers(dev.chip) == TxPointers(old(dev.chip))
    ensures dev.chip.file[EIE] == if x.Set? then SetBits(old(dev.chip).file[EIE], x.value) else old(dev.chip).file[EIE]
    ensures dev.chip.TxFlag() == (x.Set? && old(dev.chip).TxFlag())
    ensures dev.bnBank == old(dev.bnBank) && dev.chip.Bsel() == 0
    ensures Takes(old(dev.chip), x, dev.chip)
    ensures LinkStays(old(dev.chip), dev.chip) && dev.chip.log == old(dev.chip).log + Events(w)
  {
    hide RingOf, TxSafe, Loading, Nearing, High, Do, Events;
    hide Perform, Flat, Chip.TxFlag, TxPointers, Evolves, Takes, LinkStays;
    ghost var c1 := dev.chip;
    Approach(dev, w, base, n);
    LoadingTwice(c, c1, dev.chip);
    ghost var c2 := dev.chip;
    NearingCounts(c1, c2);
    AtBankZero(dev.View(), x);
    FlagKeeps(c, c2, x, base, n);
    AccessTakes(c2, x);
    AccessLog(c2, x);
    if x.Set? { dev.PutSet(x.reg, x.value); } else { dev.PutClear(x.reg, x.value); }
    TakesAfter(c1, c2, x, dev.chip);
    LinkTwice(c1, c2, dev.chip);
  }

  lemma FlagKeeps(o: Chip, c: Chip, x: Access, base: Addr, n: nat)
    requires RingOf(c, base, n) && Loading(o, c) && TxSafe(c)
    requires x == Clear(EIR, 0x08) || x == Set(EIE, 0x08) || x == Set(EIE, 0x80)
    ensures var d := Flat(BankCache.Select(c, BANK_0), x).0;
            && RingOf(d, base, n) && Loading(o, d) && TxSafe(d) && d.Bsel() == 0 && d.bus == c.bus
            && High(d) == High(c) && TxPointers(d) == TxPointers(c)
            && d.file[EIE] == (if x.Set? then SetBits(c.file[EIE], x.value) else c.file[EIE])
            && d.TxFlag() == (x.Set? && c.TxFlag())
    ensures LinkStays(c, Flat(BankCache.Select(c, BANK_0), x).0)
  {
    hide Or, AndNot, Bit, Tiles, Pair, Flat, BankCache.Select;
    var d := Flat(BankCache.Select(c, BANK_0), x).0;
    FlagEffect(c, x);
    SelectSelects(c, BANK_0);
    MaskBits();
    AndNotBit(c.file[0x1C], 0x08, 4);
    AndNotBit(c.file[0x1C], 0x08, 3);
    QuarterBits(BankCache.Select(c, BANK_0).file[0x1F], c.file[0x1F], 3);
    SameRing(c, d, base, n);
  }

  // The dispatcher's own accesses to EIE and EIR that are not about TXIF: INTIE off and on, the
  // link-change enable off, and the error and DMA flags cleared.
  predicate Housekeeping(x: Access)
  {
    || x == Clear(EIE, 0x80) || x == Set(EIE, 0x80) || x == Clear(EIE, 0x10)
    || x == Clear(EIR, 0x01) || x == Clear(EIR, 0x02) || x == Clear(EIR, 0x20)
  }

  // They disturb neither side.
  lemma HousekeepingKeeps(c: Chip, x: Access, base: Addr, n: nat)
    requires RingOf(c, base, n) && TxSafe(c) && Housekeeping(x)
    ensures var d := Flat(BankCache.Select(c, BANK_0), x).0;
            && RingOf(d, base, n) && TxSafe(d) && TxHistory(c, d) && d.Bsel() == 0 && d.bus == c.bus
            && d.mii == c.mii && d.taken == c.taken && d.Packets() == c.Packets()
    ensures LinkStays(c, Flat(BankCache.Select(c, BANK_0), x).0)
  {
    hide Or, AndNot, Bit, Tiles, Pair, TxHistory, Flat, BankCache.Select, SetBits;
    var d := Flat(BankCache.Select(c, BANK_0), x).0;
    FlagEffect(c, x);
    SelectSelects(c, BANK_0);
    MaskBits();
    AndNotBit(c.file[0x1C], x.value, 4);
    AndNotBit(c.file[0x1C], x.value, 3);
    QuarterBits(BankCache.Select(c, BANK_0).file[0x1F], c.file[0x1F], 3);
    SameRing(c, d, base, n);
    TxUntouched(c, d);
  }

  method KeepHouse(dev: Device, x: Access, w: Pause, ghost base: Addr, ghost n: nat)
    requires Ready(dev) && RingOf(dev.chip, base, n) && Housekeeping(x)
    modifies dev`chip, dev`bnBank
    ensures Ready(dev) && RingOf(dev.chip, base, n)
    ensures old(dev.chip.taken) <= dev.chip.taken && TxHistory(old(dev.chip), dev.chip)
    ensures dev.chip.Packets() - old(dev.chip.Packets()) == |dev.chip.taken| - |old(dev.chip.taken)|
    ensures dev.chip.mii == old(dev.chip.mii)
    ensures dev.bnBank == old(dev.bnBank) && dev.chip.Bsel() == 0
    ensures Takes(old(dev.chip), x, dev.chip)
    ensures LinkStays(old(dev.chip), dev.chip) && dev.chip.log == old(dev.chip).log + Events(w)
  {
    hide Events;
    hide RingOf, TxSafe, Do, Perform, Flat, TxHistory, Nearing, Weak, Chip.Bsel, Evolves, Takes, LinkStays;
    ghost var c0 := dev.chip;
    Approach(dev, w, base, n);
    ghost var c := dev.chip;
    NearingCounts(c0, c);
    AtBankZero(dev.View(), x);
    HousekeepingKeeps(c, x, base, n);
    AccessTakes(c, x);
    AccessLog(c, x);
    if x.Set? { dev.PutSet(x.reg, x.value); } else { dev.PutClear(x.reg, x.value); }
    TakesAfter(c0, c, x, dev.chip);
    LinkTwice(c0, c, dev.chip);
    TxHistoryTwice(c0, c, dev.chip);
  }

  // What a PHY access leaves alone is enough for both sides.
  lemma PhyKeeps(c: Chip, d: Chip, stray: bool, base: Addr, n: nat)
    requires RingOf(c, base, n) && TxSafe(c) && Aside(c, d, stray)
    requires d.file[0x1C] == c.file[0x1C] || d.file[0x1C] == ClearBits(c.file[0x1C], 0x10)
    ensures RingOf(d, base, n) && TxSafe(d) && TxHistory(c, d)
    ensures d.taken == c.taken && d.Packets() == c.Packets()
    ensures d.file[0x1C] == c.file[0x1C] ==> LinkStays(c, d)
  {
    hide AndNot, Bit, Tiles, Pair, TxHistory;
    MaskBits();
    AndNotBit(c.file[0x1C], 0x10, 3);
    QuarterBits(c.file[0x1F], d.file[0x1F], 3);
    SameRing(c, d, base, n);
    TxUntouched(c, d);
  }

  // The chip is about to send, or sending, exactly these bytes; its status vector stays
  // inside the buffer memory and off the receive ring.
  predicate Sends(c: Chip, data: seq<Byte>)
  {
    && c.Sending() && c.mem[TX_START] == 0 && c.Outgoing() == data
    && c.Etxst() == TX_START && c.Etxnd() == TX_START + |data| && c.Etxnd() + 7 <= TX_END
  }

  lemma Launch(o: Chip, c: Chip, data: seq<Byte>, base: Addr, n: nat)
    requires RingOf(c, base, n) && Loading(o, c) && !c.TxFlag() && |data| <= SEND_LIMIT
    requires High(c)[..1 + |data|] == [0] + data
    requires c.Etxst() == TX_START && c.Etxnd() == TX_START + |data|
    ensures var d := Flat(BankCache.Select(c, BANK_0), Set(ECON1, 0x08)).0;
            && RingOf(d, base, n) && TxSafe(d) && d.Bsel() == 0 && d.bus == c.bus
            && Sends(d, data) && d.out == c.out && d.taken == c.taken && d.Packets() == c.Packets()
            && d.mii == o.mii
            && d.file[EIE] == c.file[EIE]
    ensures LinkStays(c, Flat(BankCache.Select(c, BANK_0), Set(ECON1, 0x08)).0)
  {
    hide Or, AndNot, Bit, Tiles;
    var s := BankCache.Select(c, BANK_0);
    var d := Flat(s, Set(ECON1, 0x08)).0;
    SelectSelects(c, BANK_0);
    MaskBits();
    OrBit(s.file[0x1F], 0x08, 3);
    KeepLowBits(s.file[0x1F], 0x08);
    SameRing(c, d, base, n);
    OutgoingBytes(d, data);
  }

  lemma OutgoingBytes(c: Chip, data: seq<Byte>)
    requires |data| <= SEND_LIMIT && High(c)[..1 + |data|] == [0] + data
    requires c.Etxst() == TX_START && c.Etxnd() == TX_START + |data|
    ensures c.Outgoing() == data && c.mem[TX_START] == 0
  {
    var k := |data|;
    assert High(c)[..1 + k][0] == c.mem[TX_START];
    assert c.mem[TX_START + 1..TX_START + 1 + k] == High(c)[..1 + k][1..];
  }

  // On return the transmitter is running and what it will put on the wire is the data.
  method EtherTransmit(dev: Device, data: seq<Byte>, wire: nat -> Pause, ghost base: Addr, ghost n: nat)
    returns (ok: bool)
    requires Ready(dev) && RingOf(dev.chip, base, n) && !dev.chip.Sending() && |data| <= SEND_LIMIT
    modifies dev`chip, dev`bnBank, dev.store
    ensures ok && Ready(dev) && RingOf(dev.chip, base, n)
    ensures Sends(dev.chip, data) && dev.chip.out == old(dev.chip.out) && dev.chip.mii == old(dev.chip.mii)
    ensures old(dev.chip.taken) <= dev.chip.taken
    ensures dev.chip.Packets() - old(dev.chip.Packets()) == |dev.chip.taken| - |old(dev.chip.taken)|
    ensures Bit(dev.chip.file[EIE], 3) && Bit(dev.chip.file[EIE], 7)
    ensures Pair(dev.store[TX_LEN], dev.store[TX_LEN + 1]) == TX_START + |data|
    ensures forall j | 0 <= j < dev.store.Length && !(TX_LEN <= j < TX_LEN + 2) :: dev.store[j] == old(dev.store[j])
    ensures dev.bnBank == old(dev.bnBank) && dev.chip.Bsel() == 0
    ensures forall back, phy | D.WellPlaced(D.Tx(0, back)) ::
              Leads(old(dev.chip), D.Tx(0, back), dev.chip, D.Tx(4, back), 4, phy)
    ensures LinkStays(old(dev.chip), dev.chip)
    ensures dev.chip.log == old(dev.chip).log + Played(wire, 0, SendPoints(|data|))
  {
    hide RingOf, TxSafe, High, Sends, Bit, Evolves, Leads, LinkStays, Played, Chip.Bsel;
    ghost var c := dev.chip;
    LoadingSelf(c);
    LoadFrame(dev, data, wire, base, n, c);
    ghost var c1 := dev.chip;
    StagingLink(c, c1);
    Launches(dev, data, wire, base, n, c);
    LinkTwice(c, c1, dev.chip);
    PlayedOn(wire, 0, 8 + |data|, 12 + |data|);
    LogThen(c, c1, dev.chip, Played(wire, 0, 8 + |data|), Played(wire, 8 + |data|, 12 + |data|));
    forall back, phy | D.WellPlaced(D.Tx(0, back)) ensures Leads(c, D.Tx(0, back), dev.chip, D.Tx(4, back), 4, phy) {
      EvolvesThenLeads(c, c1, D.Tx(0, back), dev.chip, D.Tx(4, back), 4, phy);
    }
    ok := true;
  }

  // The points at which the network may act: EWRPT, ETXST, the start of the fill and its 1 + len
  // bytes, ETXND, and the four accesses that start the transmitter.
  function SendPoints(len: nat): nat { 12 + len }

  // Those four accesses.
  method Launches(dev: Device, data: seq<Byte>, wire: nat -> Pause, ghost base: Addr, ghost n: nat, ghost c: Chip)
    requires Ready(dev) && RingOf(dev.chip, base, n) && Loading(c, dev.chip) && |data| <= SEND_LIMIT
    requires High(dev.chip)[..1 + |data|] == [0] + data
    requires TxPointers(dev.chip)[2..] == [Lo(TX_START), Hi(TX_START), Lo(TX_START + |data|), Hi(TX_START + |data|)]
    modifies dev`chip, dev`bnBank
    ensures Ready(dev) && RingOf(dev.chip, base, n) && Sends(dev.chip, data)
    ensures dev.chip.out == c.out && c.taken <= dev.chip.taken && dev.chip.mii == c.mii
    ensures dev.chip.Packets() - c.Packets() == |dev.chip.taken| - |c.taken|
    ensures Bit(dev.chip.file[EIE], 3) && Bit(dev.chip.file[EIE], 7)
    ensures dev.bnBank == old(dev.bnBank) && dev.chip.Bsel() == 0
    ensures forall back, phy | D.WellPlaced(D.Tx(0, back)) ::
              Leads(old(dev.chip), D.Tx(0, back), dev.chip, D.Tx(4, back), 4, phy)
    ensures LinkStays(old(dev.chip), dev.chip)
    ensures dev.chip.log == old(dev.chip).log + Played(wire, 8 + |data|, 12 + |data|)
  {
    hide RingOf, TxSafe, Loading, High, Do, Sends, Bit, SetBits;
    hide Or, Chip.TxFlag, Chip.Bsel, Evolves, Takes, Leads, LinkStays, Played, Events;
    ghost var c1 := dev.chip;
    ChangeFlag(dev, Clear(EIR, 0x08), wire(8 + |data|), base, n, c);
    ghost var c2 := dev.chip;
    ChangeFlag(dev, Set(EIE, 0x08), wire(9 + |data|), base, n, c);
    ghost var c3 := dev.chip;
    ChangeFlag(dev, Set(EIE, 0x80), wire(10 + |data|), base, n, c);
    ghost var c4 := dev.chip;
    BothSet(c2.file[EIE]);
    Start(dev, data, wire(11 + |data|), base, n, c);
    LinkTwice(c1, c2, c3);
    LinkTwice(c1, c3, c4);
    LinkTwice(c1, c4, dev.chip);
    FourPoints(c1, c2, c3, c4, dev.chip, wire, 8 + |data|);
    forall back, phy | D.WellPlaced(D.Tx(0, back)) ensures Leads(c1, D.Tx(0, back), dev.chip, D.Tx(4, back), 4, phy) {
      SendLeads(c1, c2, c3, c4, dev.chip, back, phy);
    }
  }

  lemma BothSet(x: Byte)
    ensures var y := SetBits(SetBits(x, 0x08), 0x80); Bit(y, 3) && Bit(y, 7)
  {
    hide Bit, Or;
    MaskBits();
    OrBit(x, 0x08, 3);
    OrBit(SetBits(x, 0x08), 0x80, 3);
    OrBit(SetBits(x, 0x08), 0x80, 7);
  }

  lemma FourPoints(a: Chip, b: Chip, c: Chip, d: Chip, e: Chip, wire: nat -> Pause, i: nat)
    requires b.log == a.log + Events(wire(i)) && c.log == b.log + Events(wire(i + 1))
    requires d.log == c.log + Events(wire(i + 2)) && e.log == d.log + Events(wire(i + 3))
    ensures e.log == a.log + Played(wire, i, i + 4)
  {
    hide Played, Events;
    PlayedTwo(wire, i);
    PlayedTwo(wire, i + 2);
    PlayedOn(wire, i, i + 2, i + 4);
    LogThen(a, b, c, Events(wire(i)), Events(wire(i + 1)));
    LogThen(c, d, e, Events(wire(i + 2)), Events(wire(i + 3)));
    LogThen(a, c, e, Played(wire, i, i + 2), Played(wire, i + 2, i + 4));
  }

  // The steps up to ETXND.
  method LoadFrame(dev: Device, data: seq<Byte>, wire: nat -> Pause, ghost base: Addr, ghost n: nat, ghost c: Chip)
    requires Ready(dev) && RingOf(dev.chip, base, n) && Staging(c, dev.chip) && |data| <= SEND_LIMIT
    modifies dev`chip, dev`bnBank, dev.store
    ensures Ready(dev) && RingOf(dev.chip, base, n) && Staging(c, dev.chip)
    ensures High(dev.chip)[..1 + |data|] == [0] + data
    ensures TxPointers(dev.chip)[2..] == [Lo(TX_START), Hi(TX_START), Lo(TX_START + |data|), Hi(TX_START + |data|)]
    ensures Pair(dev.store[TX_LEN], dev.store[TX_LEN + 1]) == TX_START + |data|
    ensures forall j | 0 <= j < dev.store.Length && !(TX_LEN <= j < TX_LEN + 2) :: dev.store[j] == old(dev.store[j])
    ensures dev.bnBank == old(dev.bnBank) && dev.chip.log == old(dev.chip).log + Played(wire, 0, 8 + |data|)
  {
    hide RingOf, TxSafe, Staging, High, Do, Bit, Or, Chip.TxFlag, Chip.Bsel, Pair, Lo, Hi, Played, Events;
    ghost var c0 := dev.chip;
    PointToStart(dev, wire, base, n, c);
    ghost var c1 := dev.chip;
    var last: Word := TX_START + |data|;
    PairSplits(last);
    dev.store[TX_LEN], dev.store[TX_LEN + 1] := Lo(last), Hi(last);
    Fill(dev, data, wire, 4, base, n, c);
    ghost var c2 := dev.chip;
    PlayedOn(wire, 0, 4, 6 + |data|);
    LogThen(c0, c1, c2, Played(wire, 0, 4), Played(wire, 4, 6 + |data|));
    WriteTwo(dev, ETXNDL, ETXNDH, last, wire, 6 + |data|, base, n, c);
    PlayedOn(wire, 0, 6 + |data|, 8 + |data|);
    LogThen(c0, c2, dev.chip, Played(wire, 0, 6 + |data|), Played(wire, 6 + |data|, 8 + |data|));
  }

  // A pointer is written, low byte first.
  method WriteTwo(dev: Device, lo: Byte, hi: Byte, v: Word, wire: nat -> Pause, point: nat, ghost base: Addr,
                  ghost n: nat, ghost c: Chip)
    requires Ready(dev) && RingOf(dev.chip, base, n) && Staging(c, dev.chip)
    requires EWRPTL <= lo < hi == lo + 1 <= ETXNDH
    modifies dev`chip, dev`bnBank
    ensures Ready(dev) && RingOf(dev.chip, base, n) && Staging(c, dev.chip)
    ensures High(dev.chip) == High(old(dev.chip))
    ensures TxPointers(dev.chip) == TxPointers(old(dev.chip))[lo - 2 := Lo(v)][hi - 2 := Hi(v)]
    ensures dev.bnBank == old(dev.bnBank) && dev.chip.log == old(dev.chip).log + Played(wire, point, point + 2)
  {
    hide RingOf, TxSafe, Staging, High, Weak, Played, Events, TxPointers;
    ghost var c0 := dev.chip;
    WriteTxPointer(dev, lo, Lo(v), wire(point), base, n, c);
    ghost var c1 := dev.chip;
    WriteTxPointer(dev, hi, Hi(v), wire(point + 1), base, n, c);
    PlayedTwo(wire, point);
    LogThen(c0, c1, dev.chip, Events(wire(point)), Events(wire(point + 1)));
  }

  // The write pointer and ETXST are set to the start of the transmit area.
  method PointToStart(dev: Device, wire: nat -> Pause, ghost base: Addr, ghost n: nat, ghost c: Chip)
    requires Ready(dev) && RingOf(dev.chip, base, n) && Staging(c, dev.chip)
    modifies dev`chip, dev`bnBank
    ensures Ready(dev) && RingOf(dev.chip, base, n) && Staging(c, dev.chip)
    ensures dev.chip.Ewrpt() == TX_START && TxPointers(dev.chip)[2..4] == [Lo(TX_START), Hi(TX_START)]
    ensures dev.bnBank == old(dev.bnBank) && dev.chip.log == old(dev.chip).log + Played(wire, 0, 4)
  {
    hide RingOf, TxSafe, Staging, High, Do, Chip.Bsel, Pair, Weak, Played, Events;
    PairSplits(TX_START);
    ghost var c0 := dev.chip;
    WriteTwo(dev, EWRPTL, EWRPTH, TX_START, wire, 0, base, n, c);
    ghost var c1 := dev.chip;
    WriteTwo(dev, ETXSTL, ETXSTH, TX_START, wire, 2, base, n, c);
    PlayedOn(wire, 0, 2, 4);
    LogThen(c0, c1, dev.chip, Played(wire, 0, 2), Played(wire, 2, 4));
    Pointers(dev.chip);
  }

  // The last step: TXRTS is set.
  method Start(dev: Device, data: seq<Byte>, w: Pause, ghost base: Addr, ghost n: nat, ghost c: Chip)
    requires Ready(dev) && RingOf(dev.chip, base, n) && Loading(c, dev.chip) && |data| <= SEND_LIMIT
    requires !dev.chip.TxFlag() && High(dev.chip)[..1 + |data|] == [0] + data
    requires TxPointers(dev.chip)[2..] == [Lo(TX_START), Hi(TX_START), Lo(TX_START + |data|), Hi(TX_START + |data|)]
    modifies dev`chip, dev`bnBank
    ensures Ready(dev) && RingOf(dev.chip, base, n) && Sends(dev.chip, data)
    ensures dev.chip.out == c.out && c.taken <= dev.chip.taken && dev.chip.mii == c.mii
    ensures dev.chip.Packets() - c.Packets() == |dev.chip.taken| - |c.taken|
    ensures dev.chip.file[EIE] == old(dev.chip).file[EIE]
    ensures dev.bnBank == old(dev.bnBank) && dev.chip.Bsel() == 0
    ensures Takes(old(dev.chip), Set(ECON1, 0x08), dev.chip)
    ensures LinkStays(old(dev.chip), dev.chip) && dev.chip.log == old(dev.chip).log + Events(w)
  {
    hide Events;
    hide RingOf, TxSafe, Nearing, High, Do, Perform, Flat, Sends;
    hide Bit, Or, Chip.TxFlag, Pair, Weak, Evolves, Takes, LinkStays;
    ghost var c1 := dev.chip;
    Approach(dev, w, base, n);
    LoadingTwice(c, c1, dev.chip);
    ghost var c2 := dev.chip;
    Pointers(c2);
    PairTwice(data, TxPointers(c1), TxPointers(c2));
    AtBankZero(dev.View(), Set(ECON1, 0x08));
    Launch(c, c2, data, base, n);
    NearingCounts(c1, c2);
    AccessTakes(c2, Set(ECON1, 0x08));
    AccessLog(c2, Set(ECON1, 0x08));
    dev.PutSet(ECON1, 0x08);
    TakesAfter(c1, c2, Set(ECON1, 0x08), dev.chip);
    LinkTwice(c1, c2, dev.chip);
  }

  lemma PairTwice(data: seq<Byte>, s: seq<Byte>, t: seq<Byte>)
    requires |s| == |t| == 6 && s == t && |data| <= SEND_LIMIT
    requires s[2..] == [Lo(TX_START), Hi(TX_START), Lo(TX_START + |data|), Hi(TX_START + |data|)]
    ensures Pair(t[2], t[3]) == TX_START && Pair(t[4], t[5]) == TX_START + |data|
  {
    PairSplits(TX_START);
    PairSplits(TX_START + |data|);
    assert s[2..][0] == s[2] && s[2..][1] == s[3] && s[2..][2] == s[4] && s[2..][3] == s[5];
  }

  lemma Pointers(c: Chip)
    ensures var s := TxPointers(c);
            c.Ewrpt() == Pair(s[0], s[1]) && c.Etxst() == Pair(s[2], s[3]) && c.Etxnd() == Pair(s[4], s[5])
  {
  }

  lemma LoadingSelf(c: Chip)
    requires !c.Sending()
    ensures Loading(c, c) && Staging(c, c)
  {
    hide Evolves;
    Unshown(c, c);
  }
}
