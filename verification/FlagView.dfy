// The chip seen as the flags, the packet count and the transmit request that Dispatch works
// with: every register access of the dispatcher, and every event of the network side, is a
// step of that machine on what the chip shows.

module FlagView {
  import opened Bytes
  import opened Ring
  import opened Registers
  import opened Enc28j60
  import opened BankCache
  import opened Driver
  import D = Dispatch

  // The set bits of a flag register but for bit 7, which is INTIE in EIE.
  function Flags(x: Byte): D.Flags { set b | 0 <= b < 7 && Bit(x, b) }

  predicate Shows(c: Chip, s: D.State)
  {
    && s.eie == Flags(c.file[0x1B]) && s.intie == Bit(c.file[0x1B], 7)
    && s.eir == Flags(c.file[0x1C]) - {D.PKTIF}
    && s.count == c.Packets() && s.txrts == c.Sending()
  }

  lemma FlagsSet(x: Byte, m: Byte)
    ensures Flags(SetBits(x, m)) == Flags(x) + Flags(m)
    ensures Bit(SetBits(x, m), 7) == (Bit(x, 7) || Bit(m, 7))
  {
    hide Bit, Or;
    forall b: nat ensures Bit(SetBits(x, m), b) == (Bit(x, b) || Bit(m, b)) { OrBit(x, m, b); }
  }

  lemma FlagsClear(x: Byte, m: Byte)
    ensures Flags(ClearBits(x, m)) == Flags(x) - Flags(m)
    ensures Bit(ClearBits(x, m), 7) == (Bit(x, 7) && !Bit(m, 7))
  {
    hide Bit, AndNot;
    forall b: nat ensures Bit(ClearBits(x, m), b) == (Bit(x, b) && !Bit(m, b)) { AndNotBit(x, m, b); }
  }

  // 1 << k
  function MaskOf(k: nat): Byte
  {
    if k == 0 then 0x01 else if k == 1 then 0x02 else if k == 2 then 0x04 else if k == 3 then 0x08
    else if k == 4 then 0x10 else if k == 5 then 0x20 else 0x40
  }

  lemma FlagsOfMasks()
    ensures forall k | 0 <= k < 7 :: Flags(MaskOf(k)) == {k} && !Bit(MaskOf(k), 7)
    ensures Flags(0x01) == {D.RXERIF} && Flags(0x08) == {D.TXIF} && Flags(0x10) == {D.LINKIF}
    ensures Flags(0x40) == {D.PKTIF} && !Bit(0x08, 7) && !Bit(0x10, 7)
    ensures Flags(0x0A) == {D.TXERIF, D.TXIF} && Flags(0x80) == {} && Bit(0x80, 7)
  {
    forall k | 0 <= k < 7 ensures Flags(MaskOf(k)) == {k} && !Bit(MaskOf(k), 7) {
      forall b | 0 <= b < 8 ensures Bit(MaskOf(k), b) <==> b == k { OneBit(k, b); }
    }
    assert MaskOf(0) == 0x01 && MaskOf(3) == 0x08 && MaskOf(4) == 0x10 && MaskOf(6) == 0x40;
    forall b | 0 <= b < 7 ensures (Bit(0x0A, b) <==> b in {1, 3}) && !Bit(0x80, b) { TwoBits(b); }
  }

  lemma OneBit(k: nat, b: nat)
    requires k < 7 && b < 8
    ensures Bit(MaskOf(k), b) <==> b == k
  {
    if b < 4 { if b == 0 {} else if b == 1 {} else if b == 2 {} else {} }
    else { if b == 4 {} else if b == 5 {} else if b == 6 {} else {} }
  }

  lemma TwoBits(b: nat)
    requires b < 7
    ensures (Bit(0x0A, b) <==> b in {1, 3}) && !Bit(0x80, b)
  {
    if b == 0 {} else if b == 1 {} else if b == 2 {} else if b == 3 {} else if b == 4 {} else if b == 5 {} else {}
  }

  // ----- the program -----

  // What the dispatcher reads from EIR are the pending flags, PKTIF among them when a packet
  // is counted.
  lemma SampleIsPending(c: Chip, s: D.State)
    requires Shows(c, s)
    ensures var (d, v) := Flat(BankCache.Select(c, BANK_0), Read(EIR));
            Flags(v) == s.Pending() && !Bit(v, 7) && Shows(d, s)
  {
    hide Bit, SetBits, ClearBits;
    var x: Byte := c.file[EIR] % 0x80;
    FlagsOfMasks();
    LowFlags(c.file[EIR]);
    FlagsSet(x, 0x40);
    FlagsClear(x, 0x40);
    SelectShows(c, s);
  }

  lemma LowFlags(x: Byte)
    ensures Flags(x % 0x80) == Flags(x) && !Bit(x % 0x80, 7) && !Bit(0x40, 7)
  {
    assert Pow2(7) == 0x80;
    forall k: nat ensures Bit(x % 0x80, k) == (k < 7 && Bit(x, k)) { LowBitsOf(x, 7, k); }
  }

  // The bank is no part of the picture.
  lemma SelectShows(c: Chip, s: D.State)
    ensures var d := BankCache.Select(c, BANK_0);
            (Shows(d, s) <==> Shows(c, s)) && d.Sending() == c.Sending()
            && d == c.(file := c.file[0x1F := d.file[0x1F]])
  {
    hide Bit;
    SelectSelects(c, BANK_0);
    QuarterBits(c.file[0x1F], BankCache.Select(c, BANK_0).file[0x1F], 3);
  }

  // The access to a flag or control register with which the program takes its next step; the
  // PHIR read of a link change is not of this kind.
  function AccessAt(pc: D.Pc): seq<Access>
  {
    match pc
    case Scan(v, k) => if k < 8 && k in v then [Clear(EIE, 0x80)] else []
    case Masked(v, k) => if k in {D.RXERIF, D.TXERIF, D.TXIF, D.DMAIF} then [Clear(EIR, MaskOf(k))] else []
    case LinkRead(_) => [Clear(EIE, 0x10)]
    case Fetched(_) => [Set(ECON2, 0x40)]
    case Restore(_, _) => [Set(EIE, 0x80)]
    case Tx(stage, _) =>
      if stage == 0 then [Clear(EIR, 0x08)]
      else if stage == 1 then [Set(EIE, 0x08)]
      else if stage == 2 then [Set(EIE, 0x80)]
      else if stage == 3 then [Set(ECON1, 0x08)]
      else []
    case _ => []
  }

  function Carried(c: Chip, xs: seq<Access>): Chip
  {
    if xs == [] then c else Flat(BankCache.Select(c, BANK_0), xs[0]).0
  }

  // The access does to the chip what the step does to the machine.
  lemma StepIsAccess(c: Chip, s: D.State)
    requires Shows(c, s) && D.WellPlaced(s.pc) && (s.pc.Masked? ==> s.pc.k != D.LINKIF)
    ensures Shows(Carried(c, AccessAt(s.pc)), D.Act(s, false))
  {
    hide Shows, Flat, BankCache.Select, D.WellPlaced, MaskOf;
    var xs := AccessAt(s.pc);
    if xs == [] {
      NoAccess(s);
      SameShown(c, s, D.Act(s, false));
    } else if xs[0].reg == EIE || xs[0].reg == EIR {
      FlagAccess(c, s, xs[0]);
      FlagStep(c, s, xs[0]);
      SameShown(Carried(c, xs), Flagged(s, xs[0]), D.Act(s, false));
    } else if xs[0].reg == ECON2 {
      CountAccess(c, s);
    } else {
      RequestAccess(c, s);
    }
  }

  // The fields the chip shows.
  predicate SameFields(s: D.State, t: D.State)
  {
    t.eie == s.eie && t.intie == s.intie && t.eir == s.eir && t.count == s.count && t.txrts == s.txrts
  }

  lemma SameShown(c: Chip, s: D.State, t: D.State)
    requires Shows(c, s) && SameFields(s, t)
    ensures Shows(c, t)
  {
  }

  lemma NoAccess(s: D.State)
    requires D.WellPlaced(s.pc) && (s.pc.Masked? ==> s.pc.k != D.LINKIF) && AccessAt(s.pc) == []
    ensures SameFields(s, D.Act(s, false))
  {
    hide D.From, D.State.Pending, D.Sampled, D.WellPlaced, D.Handle, D.Send, MaskOf;
    Placed(s.pc);
    if s.pc.Masked? { Uncleared(s, s.pc.sample, s.pc.k); }
    if s.pc.Tx? && s.pc.stage == 4 { LastStage(s, s.pc.back); }
  }

  lemma Uncleared(s: D.State, v: D.Flags, k: nat)
    requires k == D.WOLIF || k == D.PKTIF
    ensures SameFields(s, D.Handle(s, v, k, false))
  {
  }

  lemma LastStage(s: D.State, back: D.Back)
    ensures SameFields(s, D.Send(s, 4, back))
  {
  }

  lemma Placed(pc: D.Pc)
    requires D.WellPlaced(pc)
    ensures (pc.Masked? ==> pc.k <= 6) && (pc.Tx? ==> pc.stage <= 4)
  {
  }

  // What a bit-field command on EIE or EIR does to the machine.
  function Flagged(s: D.State, x: Access): D.State
    requires x.Set? || x.Clear?
  {
    var m := Flags(x.value);
    if x.reg == EIR then s.(eir := (if x.Set? then s.eir + m else s.eir - m) - {D.PKTIF})
    else s.(eie := if x.Set? then s.eie + m else s.eie - m,
            intie := if x.Set? then s.intie || Bit(x.value, 7) else s.intie && !Bit(x.value, 7))
  }

  lemma FlagAccess(c: Chip, s: D.State, x: Access)
    requires Shows(c, s) && (x.Set? || x.Clear?) && (x.reg == EIE || x.reg == EIR)
    ensures Shows(Flat(BankCache.Select(c, BANK_0), x).0, Flagged(s, x))
  {
    hide Bit, SetBits, ClearBits, Flags, Flat, BankCache.Select;
    FlagEffect(c, x);
    SelectShows(c, s);
    FlagsSet(c.file[x.reg], x.value);
    FlagsClear(c.file[x.reg], x.value);
  }

  // The program's own steps on those registers are such commands.
  lemma FlagStep(c: Chip, s: D.State, x: Access)
    requires Shows(c, s) && D.WellPlaced(s.pc) && AccessAt(s.pc) == [x] && (x.reg == EIE || x.reg == EIR)
    ensures (x.Set? || x.Clear?) && SameFields(Flagged(s, x), D.Act(s, false))
  {
    hide Flags, Bit, D.From;
    FlagsOfMasks();
  }

  lemma CountAccess(c: Chip, s: D.State)
    requires Shows(c, s) && s.pc.Fetched?
    ensures Shows(Flat(BankCache.Select(c, BANK_0), Set(ECON2, 0x40)).0, D.Act(s, false))
  {
    hide Bit, SetBits, ClearBits, Flags;
    SelectShows(c, s);
    MaskBits();
    SetHasBit(c.file[ECON2], 0x40, 6);
  }

  lemma SetHasBit(x: Byte, m: Byte, k: nat)
    ensures Bit(SetBits(x, m), k) == (Bit(x, k) || Bit(m, k))
  {
    OrBit(x, m, k);
  }

  lemma RequestAccess(c: Chip, s: D.State)
    requires Shows(c, s) && s.pc.Tx? && s.pc.stage == 3
    ensures Shows(Flat(BankCache.Select(c, BANK_0), Set(ECON1, 0x08)).0, D.Act(s, false))
  {
    hide Bit, SetBits, Flags;
    SelectShows(c, s);
    MaskBits();
    SetHasBit(BankCache.Select(c, BANK_0).file[ECON1], 0x08, 3);
  }

  // The handler of a link change: the flag goes exactly if the read reaches the PHY.
  lemma LinkReadIsStep(p: Port, s: D.State)
    requires Shows(p.chip, s) && Weak(p) && p.chip.mii.Idle? && s.pc.Masked? && s.pc.k == D.LINKIF
    ensures Shows(PhyRead(p, PHIR).0.chip, D.Act(s, ReachesMii(p)))
  {
    hide Bit, ClearBits, Flags, PhyRead;
    var d := PhyRead(p, PHIR).0.chip;
    PhyReadEffect(p, PHIR);
    FlagsOfMasks();
    FlagsClear(p.chip.file[EIR], 0x10);
    QuarterBits(p.chip.file[0x1F], d.file[0x1F], 3);
    assert d.file[EIE] == p.chip.file[EIE] && d.Packets() == p.chip.Packets();
  }

  // ----- the network side -----

  // The steps an event amounts to.
  function StepsOf(c: Chip, e: Event): seq<D.Step>
  {
    match e
    case Arrive(f) => if c.Accepts(f) then [D.Arrive] else [D.RxError]
    case Scribble(_) => []
    case Overrun => [D.RxError]
    case TxDone(failed) => if c.Sending() then [D.TxEnd(failed)] else []
    case LinkChange => [D.Link]
  }

  lemma PlayIsStep(c: Chip, s: D.State, e: Event)
    requires Shows(c, s)
    ensures var xs := StepsOf(c, e);
            if xs == [] then Shows(c.Play(e), s) else D.Enabled(s, xs[0]) && Shows(c.Play(e), D.Effect(s, xs[0]))
  {
    hide Bit, SetBits, ClearBits, Flags, WriteRing, Record;
    FlagsOfMasks();
    match e
    case Arrive(f) => if c.Accepts(f) { ArriveShows(c, s, f); } else { RaiseShows(c, s, 0x01); }
    case Scribble(_) =>
    case Overrun => RaiseShows(c, s, 0x01);
    case TxDone(failed) => if c.Sending() { TxDoneShows(c, s, failed); }
    case LinkChange => RaiseShows(c, s, 0x10);
  }

  lemma RaiseShows(c: Chip, s: D.State, m: Byte)
    requires Shows(c, s) && D.PKTIF !in Flags(m)
    ensures Shows(c.Raise(m), s.(eir := s.eir + Flags(m)))
  {
    hide Bit, SetBits, Flags;
    FlagsSet(c.file[EIR], m);
  }

  lemma ArriveShows(c: Chip, s: D.State, f: Frame)
    requires Shows(c, s) && c.Accepts(f)
    ensures s.count < 255 && Shows(c.Undergo(Arrive(f)), s.(count := s.count + 1, accepted := s.accepted + 1))
  {
    hide Bit, Flags, WriteRing, Record;
  }

  lemma TxDoneShows(c: Chip, s: D.State, failed: bool)
    requires Shows(c, s) && c.Sending()
    ensures Shows(c.Undergo(TxDone(failed)), D.Effect(s, D.TxEnd(failed)))
  {
    hide Bit, SetBits, ClearBits, Flags, Chip.StatusVector, Chip.Outgoing;
    FlagsOfMasks();
    FlagsSet(c.file[EIR], if failed then 0x0A else 0x08);
    MaskBits();
    ClearHasBit(c.file[ECON1], 0x08, 3);
  }

  lemma ClearHasBit(x: Byte, m: Byte, k: nat)
    ensures Bit(ClearBits(x, m), k) == (Bit(x, k) && !Bit(m, k))
  {
    AndNotBit(x, m, k);
  }
}
