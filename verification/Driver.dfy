// The driver object: the register access routines byte by byte over SPI, the PHY side, and
// start-up.

module Driver {
  import opened Bytes
  import opened Ring
  import opened Registers
  import opened Enc28j60
  import opened BankCache

  // Offsets into the driver's packet store.
  const NXT_PKT := 0
  const RX_STAT := 2
  const RX_LEN := 6
  const RX_DATA := 8
  const PTR_ADDR := 1508
  const TX_LEN := 1510
  const TX_DATA := 1512
  const STORE := 3012
  const BUFFER_SIZE := 1500

  // The longest frame whose control byte, bytes and status vector fit behind the receive ring: 2040
  // bytes.
  const SEND_LIMIT := 0x1FFF - 0x1800 - 7

  const TX_START: Word := 0x1800
  const TX_END: Word := 0x1FFF
  const MAX_FRAME: Word := 1500

  class Device {
    var chip: Chip
    var bnBank: Bank

    // rxPkt followed by txPkt, byte for byte as the packed structs lie in memory, and whatever
    // lies in memory behind them.
    const store: array<Byte>

    constructor (c: Chip, behind: nat)
      ensures chip == c && bnBank == BANK_0 && fresh(store) && store.Length == STORE + behind
      ensures forall i | 0 <= i < STORE :: store[i] == 0
    {
      chip, bnBank := c, BANK_0;
      store := new Byte[STORE + behind](_ => 0);
    }

    function View(): Port
      reads this
    {
      Port(chip, bnBank)
    }

    predicate Quiet()
      reads this
    {
      chip.bus == Released
    }

    // ----- the SPI callbacks -----

    method ChipSelect()
      modifies this`chip
      ensures chip == old(chip).Select()
    {
      chip := chip.Select();
    }

    method ChipDeselect()
      modifies this`chip
      ensures chip == old(chip).Release()
    {
      chip := chip.Release();
    }

    method SpiWrite(b: Byte)
      modifies this`chip
      ensures chip == old(chip).Mosi(b)
    {
      chip := chip.Mosi(b);
    }

    method SpiRead() returns (b: Byte)
      modifies this`chip
      ensures (b, chip) == old(chip).Miso()
    {
      var r := chip.Miso();
      b, chip := r.0, r.1;
    }

    // ----- register access -----

    method BankChange(b: Bank)
      requires Quiet() && b != bnBank
      modifies this`chip, this`bnBank
      ensures Quiet() && View() == Switch(old(View()), b)
    {
      hide Chip.Mosi, Chip.Masked, AndNot, Or;
      var command: Byte := BFC * 0x20 + Offset(ECON1);
      ClearTransaction(chip, 0x1F, 0x03);
      ClearBsel(chip);
      ChipSelect();
      SpiWrite(command);
      SpiWrite(0x03);
      ChipDeselect();
      var next: Byte := BFS * 0x20 + Offset(ECON1);
      var bits := BankBits(b);
      if bits != 0 && bits <= 3 {
        SetTransaction(chip, 0x1F, bits);
        SetBsel(chip, bits);
        ChipSelect();
        SpiWrite(next);
        SpiWrite(bits);
        ChipDeselect();
        bnBank := b;
      }
    }

    method ReadMacMIIReg(reg: Byte) returns (v: Byte)
      requires Quiet()
      modifies this`chip, this`bnBank
      ensures Quiet() && (View(), v) == Do(old(View()), ReadMac(reg))
    {
      hide Chip.Mosi, Chip.Miso, Chip.Peek, Chip.Polled, Switch;
      SwitchQuiet(View(), BankOf(reg));
      SelectBank(BankOf(reg));
      ReadTwiceTransaction(chip, Offset(reg));
      ChipSelect();
      SpiWrite(RCR * 0x20 + Offset(reg));
      v := SpiRead();
      v := SpiRead();
      ChipDeselect();
    }

    method ReadEtherReg(reg: Byte) returns (v: Byte)
      requires Quiet()
      modifies this`chip, this`bnBank
      ensures Quiet() && (View(), v) == Do(old(View()), Read(reg))
    {
      hide Perform, Switch;
      SwitchQuiet(View(), BankOf(reg));
      SelectBank(BankOf(reg));
      v := GetByte(reg);
    }

    // The transaction of that read.
    method GetByte(reg: Byte) returns (v: Byte)
      requires Quiet()
      modifies this`chip
      ensures Quiet() && (chip, v) == Perform(old(chip), old(chip).Bsel(), Read(reg))
    {
      hide Chip.Mosi, Chip.Miso, Chip.Peek, Chip.Polled;
      ReadTransaction(chip, Offset(reg));
      ChipSelect();
      SpiWrite(RCR * 0x20 + Offset(reg));
      v := SpiRead();
      ChipDeselect();
    }

    // What every access does first.
    method SelectBank(b: Bank)
      requires Quiet()
      modifies this`chip, this`bnBank
      ensures Quiet() && View() == Switch(old(View()), b)
    {
      SwitchQuiet(View(), b);
      if b != bnBank { BankChange(b); }
    }

    // The writing accesses, each of a bank switch and one SPI transaction.
    method WriteReg(reg: Byte, v: Byte)
      requires Quiet()
      modifies this`chip, this`bnBank
      ensures Quiet() && View() == Do(old(View()), Write(reg, v)).0
    {
      hide Perform, Switch;
      SwitchQuiet(View(), BankOf(reg));
      SelectBank(BankOf(reg));
      PutByte(reg, v);
    }

    method PutByte(reg: Byte, v: Byte)
      requires Quiet()
      modifies this`chip
      ensures Quiet() && chip == Perform(old(chip), old(chip).Bsel(), Write(reg, v)).0
    {
      hide Chip.Mosi, Chip.Poke, Chip.Masked;
      WriteTransaction(chip, Offset(reg), v);
      ChipSelect();
      SpiWrite(WCR * 0x20 + Offset(reg));
      SpiWrite(v);
      ChipDeselect();
    }

    method BitFieldSet(reg: Byte, v: Byte)
      requires Quiet()
      modifies this`chip, this`bnBank
      ensures Quiet() && View() == Do(old(View()), Set(reg, v)).0
    {
      hide Perform, Switch;
      SwitchQuiet(View(), BankOf(reg));
      SelectBank(BankOf(reg));
      PutSet(reg, v);
    }

    method PutSet(reg: Byte, v: Byte)
      requires Quiet()
      modifies this`chip
      ensures Quiet() && chip == Perform(old(chip), old(chip).Bsel(), Set(reg, v)).0
    {
      hide Chip.Mosi, Chip.Poke, Chip.Masked;
      SetTransaction(chip, Offset(reg), v);
      ChipSelect();
      SpiWrite(BFS * 0x20 + Offset(reg));
      SpiWrite(v);
      ChipDeselect();
    }

    method BitFieldClear(reg: Byte, v: Byte)
      requires Quiet()
      modifies this`chip, this`bnBank
      ensures Quiet() && View() == Do(old(View()), Clear(reg, v)).0
    {
      hide Perform, Switch;
      SwitchQuiet(View(), BankOf(reg));
      SelectBank(BankOf(reg));
      PutClear(reg, v);
    }

    method PutClear(reg: Byte, v: Byte)
      requires Quiet()
      modifies this`chip
      ensures Quiet() && chip == Perform(old(chip), old(chip).Bsel(), Clear(reg, v)).0
    {
      hide Chip.Mosi, Chip.Poke, Chip.Masked;
      ClearTransaction(chip, Offset(reg), v);
      ChipSelect();
      SpiWrite(BFC * 0x20 + Offset(reg));
      SpiWrite(v);
      ChipDeselect();
    }

    // ----- PHY registers, through the MII registers of bank 2 and MISTAT of bank 3 -----

    // Waits until MISTAT.BUSY falls.
    method AwaitMii()
      requires Quiet() && Weak(View()) && bnBank == BANK_2
      modifies this`chip, this`bnBank
      ensures Quiet() && bnBank == BANK_3 && chip == Completed(BankCache.Select(old(chip), BANK_3))
    {
      ghost var start := BankCache.Select(chip, BANK_3);
      SelectSelects(chip, BANK_3);
      var busy := ReadMacMIIReg(MISTAT);
      while busy % 2 == 1
        invariant Quiet() && bnBank == BANK_3
        invariant chip == if busy % 2 == 1 then start.(mii := chip.mii) else Completed(start)
        invariant busy % 2 == 1 ==> !chip.mii.Idle? && Ended(chip.mii) == Ended(start.mii)
        decreases if chip.mii.Idle? then 0 else chip.mii.left, busy
      {
        busy := ReadMacMIIReg(MISTAT);
      }
    }

    method ReadPhyReg(addr: Byte) returns (r: Word)
      requires Quiet() && Weak(View()) && addr < 32 && chip.mii.Idle?
      modifies this`chip, this`bnBank
      ensures Quiet() && (View(), r) == PhyRead(old(View()), addr)
    {
      hide Do, Completed, Chip.Bsel, Aside;
      RequestEffect(View(), addr);
      WriteReg(MIREGADR, addr);
      var command := ReadMacMIIReg(MICMD);
      WriteReg(MICMD, SetBits(command, 1));
      AwaitMii();
      command := ReadMacMIIReg(MICMD);
      WriteReg(MICMD, ClearBits(command, 1));
      var hi := ReadMacMIIReg(MIRDH);
      var lo := ReadMacMIIReg(MIRDL);
      r := Pair(lo, hi);
    }

    method WritePhyReg(addr: Byte, data: Word)
      requires Quiet() && Weak(View()) && addr < 32 && chip.mii.Idle?
      modifies this`chip, this`bnBank
      ensures Quiet() && View() == PhyWrite(old(View()), addr, data)
    {
      hide Do, Completed, Chip.Bsel, Aside;
      CommandEffect(View(), addr, data);
      WriteReg(MIREGADR, addr);
      WriteReg(MIWRL, Lo(data));
      WriteReg(MIWRH, Hi(data));
      AwaitMii();
    }

    // ----- start-up -----

    method SoftReset()
      requires Quiet()
      modifies this`chip
      ensures Quiet() && chip == old(chip).Reset() && View() == Do(old(View()), BankCache.SoftReset).0
    {
      ResetIsAccess(View());
      ChipSelect();
      SpiWrite(SOFT_RESET);
      ChipDeselect();
    }

    method AwaitClock()
      requires Quiet() && Weak(View())
      modifies this`chip, this`bnBank
      ensures Quiet() && bnBank == old(bnBank)
      ensures chip == BankCache.Select(old(chip), BANK_0).(startup := 0)
    {
      hide Do, Same;
      ghost var start := BankCache.Select(chip, BANK_0);
      var ready := false;
      while !ready
        invariant Quiet() && bnBank == old(bnBank) && Weak(View())
        invariant BankCache.Select(chip, BANK_0) == start.(startup := chip.startup)
        invariant ready ==> chip == start.(startup := 0)
        decreases chip.startup, !ready
      {
        Reaches(View(), Read(ESTAT));
        OrOne(chip.file[0x1D]);
        AndNotOne(chip.file[0x1D]);
        SelectTwice(chip, BANK_0);
        var v := ReadEtherReg(ESTAT);
        ready := v % 2 == 1;
      }
    }

    // The twelve writes to bank 0 that lay out the buffers.
    method SetUpBuffers()
      requires Quiet() && Weak(View()) && store.Length >= STORE
      modifies this`chip, this`bnBank
      ensures Quiet() && bnBank == old(bnBank) && chip.Bsel() == 0
      ensures Outside(old(chip), chip, 0x00, 0x10) && chip.mem == old(chip.mem)
      ensures chip.Erdpt() == Pair(store[PTR_ADDR], store[PTR_ADDR + 1])
      ensures BuffersLaid(chip)
    {
      hide Outside, Chip.Bsel, Chip.Erdpt, RingLaid;
      ghost var c := chip;
      SetUpReceiveBuffer();
      ghost var c1 := chip;
      SetUpTransmitBuffer();
      TransmitPart(c, c1, chip);
    }

    // The first eight of them.
    method SetUpReceiveBuffer()
      requires Quiet() && Weak(View()) && store.Length >= STORE
      modifies this`chip, this`bnBank
      ensures Quiet() && bnBank == old(bnBank) && chip.Bsel() == 0
      ensures Outside(old(chip), chip, 0x00, 0x10) && chip.mem == old(chip.mem)
      ensures chip.Erdpt() == Pair(store[PTR_ADDR], store[PTR_ADDR + 1])
      ensures RingLaid(chip)
    {
      hide Do, Same, Chip.Bsel, Outside, Weak, Pair, RingLaid;
      ghost var c := chip;
      BankZeroWrite(c, View(), ERXSTL, Lo(RX_START), 0x00, 0x10);
      WriteReg(ERXSTL, Lo(RX_START));
      BankZeroWrite(c, View(), ERXSTH, Hi(RX_START), 0x00, 0x10);
      WriteReg(ERXSTH, Hi(RX_START));
      BankZeroWrite(c, View(), ERDPTL, store[PTR_ADDR], 0x00, 0x10);
      WriteReg(ERDPTL, store[PTR_ADDR]);
      BankZeroWrite(c, View(), ERDPTH, store[PTR_ADDR + 1], 0x00, 0x10);
      WriteReg(ERDPTH, store[PTR_ADDR + 1]);
      BankZeroWrite(c, View(), ERXNDL, Lo(RX_END), 0x00, 0x10);
      WriteReg(ERXNDL, Lo(RX_END));
      BankZeroWrite(c, View(), ERXNDH, Hi(RX_END), 0x00, 0x10);
      WriteReg(ERXNDH, Hi(RX_END));
      BankZeroWrite(c, View(), ERXRDPTL, Lo(RX_END), 0x00, 0x10);
      WriteReg(ERXRDPTL, Lo(RX_END));
      BankZeroWrite(c, View(), ERXRDPTH, Hi(RX_END), 0x00, 0x10);
      WriteReg(ERXRDPTH, Hi(RX_END));
      LaidByBytes(chip);
    }

    // The last four of them.
    method SetUpTransmitBuffer()
      requires Quiet() && Weak(View())
      modifies this`chip, this`bnBank
      ensures Quiet() && bnBank == old(bnBank) && chip.Bsel() == 0
      ensures Outside(old(chip), chip, 0x04, 0x08) && chip.mem == old(chip.mem)
      ensures chip.Etxst() == TX_START && chip.Etxnd() == TX_END
    {
      hide Do, Same, Chip.Bsel, Outside, Weak, Pair;
      PairSplits(TX_START);
      PairSplits(TX_END);
      ghost var c := chip;
      BankZeroWrite(c, View(), ETXSTL, Lo(TX_START), 0x04, 0x08);
      WriteReg(ETXSTL, Lo(TX_START));
      BankZeroWrite(c, View(), ETXSTH, Hi(TX_START), 0x04, 0x08);
      WriteReg(ETXSTH, Hi(TX_START));
      BankZeroWrite(c, View(), ETXNDL, Lo(TX_END), 0x04, 0x08);
      WriteReg(ETXNDL, Lo(TX_END));
      BankZeroWrite(c, View(), ETXNDH, Hi(TX_END), 0x04, 0x08);
      WriteReg(ETXNDH, Hi(TX_END));
    }

    method PhyInit()
      requires Quiet() && Weak(View()) && chip.mii.Idle?
      modifies this`chip, this`bnBank
      ensures Quiet() && bnBank == BANK_3 && chip.Bsel() == 3 && chip.mii.Idle?
      ensures Aside(old(chip), chip, !old(ReachesMii(View()))) && chip.file[0x1C] == old(chip.file[0x1C])
      ensures var seen := if old(ReachesMii(View())) then old(chip.phy)[PHCON1] else old(chip.Mird());
              chip.phy == old(chip.phy)[PHCON1 := OrWord(seen, 0x0100)][PHIE := OrWord(old(chip.phy)[PHIE], 0x0012)]
    {
      hide Do, Aside, Chip.Bsel, PhyRead, PhyWrite;
      ghost var c, stray := chip, !ReachesMii(View());
      PhyReadEffect(View(), PHCON1);
      var v := ReadPhyReg(PHCON1);
      ghost var d := chip;
      PhyWriteEffect(View(), PHCON1, OrWord(v, 0x0100));
      WritePhyReg(PHCON1, OrWord(v, 0x0100));
      AsideTwice(c, d, chip, stray);
      d := chip;
      PhyReadEffect(View(), PHIE);
      v := ReadPhyReg(PHIE);
      AsideTwice(c, d, chip, stray);
      d := chip;
      PhyWriteEffect(View(), PHIE, OrWord(v, 0x0012));
      WritePhyReg(PHIE, OrWord(v, 0x0012));
      AsideTwice(c, d, chip, stray);
    }

    method MacInit()
      requires Quiet() && Weak(View()) && ReachesMii(View()) && chip.mii.Idle?
      modifies this`chip, this`bnBank
      ensures Quiet() && bnBank == BANK_3 && chip.Bsel() == 3
      ensures Outside(old(chip), chip, 0x40, 0x80) && chip.mem == old(chip.mem) && chip.latch == old(chip.latch)
      ensures MacSet(old(chip), chip)
    {
      hide Do, Chip.Bsel, Chip.Reg, Outside, Weak, SetBits, ClearBits;
      ghost var c := chip;
      SetMacControl();
      MacAccess(c, View(), Write(MAMXFLL, Lo(MAX_FRAME)), 0x40, 0x80);
      WriteReg(MAMXFLL, Lo(MAX_FRAME));
      MacAccess(c, View(), Write(MAMXFLH, Hi(MAX_FRAME)), 0x40, 0x80);
      WriteReg(MAMXFLH, Hi(MAX_FRAME));
      MacAccess(c, View(), Write(MABBIPG, 0x15), 0x40, 0x80);
      WriteReg(MABBIPG, 0x15);
      MacAccess(c, View(), Write(MAIPGL, 0x12), 0x40, 0x80);
      WriteReg(MAIPGL, 0x12);
      ghost var c1 := chip;
      SetStationAddress();
      SameMac(c1, chip);
      OutsideTwice(c, c1, chip, 0x40, 0x80, 0x60, 0x66);
    }

    // The three read-modify-writes with which MacInit begins.
    method SetMacControl()
      requires Quiet() && Weak(View()) && !StaleFor(View(), BANK_2)
      modifies this`chip, this`bnBank
      ensures Quiet() && Weak(View()) && bnBank == BANK_2 && chip.Bsel() == 2
      ensures Outside(old(chip), chip, 0x40, 0x80) && chip.mem == old(chip.mem) && chip.latch == old(chip.latch)
      ensures chip.Reg(MACLCON2) == ClearBits(old(chip.Reg(MACLCON2)), 0x80)
      ensures chip.Reg(MACON1) == SetBits(old(chip.Reg(MACON1)), 0x0D)
      ensures chip.Reg(MACON3) == SetBits(old(chip.Reg(MACON3)), 0xF5)
    {
      hide Do, Chip.Bsel, Chip.Reg, Outside, Weak, SetBits, ClearBits;
      ghost var c := chip;
      MacAccess(c, View(), ReadMac(MACLCON2), 0x40, 0x80);
      var v := ReadMacMIIReg(MACLCON2);
      MacAccess(c, View(), Write(MACLCON2, ClearBits(v, 0x80)), 0x40, 0x80);
      WriteReg(MACLCON2, ClearBits(v, 0x80));
      MacAccess(c, View(), ReadMac(MACON1), 0x40, 0x80);
      v := ReadMacMIIReg(MACON1);
      MacAccess(c, View(), Write(MACON1, SetBits(v, 0x0D)), 0x40, 0x80);
      WriteReg(MACON1, SetBits(v, 0x0D));
      MacAccess(c, View(), ReadMac(MACON3), 0x40, 0x80);
      v := ReadMacMIIReg(MACON3);
      MacAccess(c, View(), Write(MACON3, SetBits(v, 0xF5)), 0x40, 0x80);
      WriteReg(MACON3, SetBits(v, 0xF5));
    }

    // The last six writes of MacInit.
    method SetStationAddress()
      requires Quiet() && Weak(View()) && !StaleFor(View(), BANK_3)
      modifies this`chip, this`bnBank
      ensures Quiet() && bnBank == BANK_3 && chip.Bsel() == 3
      ensures Outside(old(chip), chip, 0x60, 0x66) && chip.mem == old(chip.mem) && chip.latch == old(chip.latch)
      ensures [chip.Reg(MAADR0), chip.Reg(MAADR1), chip.Reg(MAADR2), chip.Reg(MAADR3), chip.Reg(MAADR4),
               chip.Reg(MAADR5)] == MAC_ADDRESS
    {
      hide Do, Chip.Bsel, Chip.Reg, Outside, Weak;
      ghost var c := chip;
      MacAccess(c, View(), Write(MAADR0, MAC_ADDRESS[0]), 0x60, 0x66);
      WriteReg(MAADR0, MAC_ADDRESS[0]);
      MacAccess(c, View(), Write(MAADR1, MAC_ADDRESS[1]), 0x60, 0x66);
      WriteReg(MAADR1, MAC_ADDRESS[1]);
      MacAccess(c, View(), Write(MAADR2, MAC_ADDRESS[2]), 0x60, 0x66);
      WriteReg(MAADR2, MAC_ADDRESS[2]);
      MacAccess(c, View(), Write(MAADR3, MAC_ADDRESS[3]), 0x60, 0x66);
      WriteReg(MAADR3, MAC_ADDRESS[3]);
      MacAccess(c, View(), Write(MAADR4, MAC_ADDRESS[4]), 0x60, 0x66);
      WriteReg(MAADR4, MAC_ADDRESS[4]);
      MacAccess(c, View(), Write(MAADR5, MAC_ADDRESS[5]), 0x60, 0x66);
      WriteReg(MAADR5, MAC_ADDRESS[5]);
    }

    // Whatever bank was cached before. The PHY's PHCON1 is not what was meant: its first read
    // goes astray, so it gets the value of PHID2 read before, with bit 8 set.
    method StartDriver()
      requires Quiet() && store.Length >= STORE
      modifies this`chip, this`bnBank
      ensures Quiet() && Weak(View()) && Started(old(chip), chip) && bnBank == BANK_1 && chip.Bsel() == 0
      ensures chip.Erdpt() == Pair(store[PTR_ADDR], store[PTR_ADDR + 1]) && StartedCells(old(chip), chip)
    {
      hide Do, PhyRead, Outside, Aside, OrWord, Or, AndNot, Bit, Fresh, MacReset, Started, StartedCells;
      hide BuffersLaid, MacSet, Enabled, Chip.Mird, Chip.Reg;
      SoftReset();
      AfterReset(old(chip), chip);
      AwaitClock();
      ghost var c0, stray := chip, !ReachesMii(View());
      AfterClock(old(chip).Reset(), c0);
      IdentifyPhy();
      ghost var c1 := chip;
      AsideKeeps(c0, c1, stray);
      SetUpBuffers();
      ghost var c2 := chip;
      OutsideKeeps(c1, c2, 0x00, 0x10);
      PhyInit();
      ghost var c3 := chip;
      AsideKeeps(c2, c3, true);
      MacInit();
      ghost var c4 := chip;
      OutsideKeeps(c3, c4, 0x40, 0x80);
      FreshEconTwo(c4);
      Enable();
      StartUpOver(old(chip), c2, c3, c4, chip);
    }

    // The PHY revision, part number and identifier: read, and not used.
    method IdentifyPhy()
      requires Quiet() && Weak(View()) && chip.mii.Idle?
      modifies this`chip, this`bnBank
      ensures Quiet() && bnBank == BANK_2 && chip.Bsel() == 2 && chip.mii.Idle?
      ensures chip.phy == old(chip.phy) && chip.Mird() == chip.phy[PHID2]
      ensures Aside(old(chip), chip, !old(ReachesMii(View()))) && chip.file[0x1C] == old(chip.file[0x1C])
    {
      hide Do, PhyRead, Aside, Chip.Bsel;
      ghost var c0, c1, stray := chip, chip, !ReachesMii(View());
      PhyReadEffect(View(), PHID2);
      var revision := ReadPhyReg(PHID2);
      c1 := chip;
      PhyReadEffect(View(), PHID2);
      var part := ReadPhyReg(PHID2);
      AsideTwice(c0, c1, chip, stray);
      c1 := chip;
      PhyReadEffect(View(), PHID1);
      var id1 := ReadPhyReg(PHID1);
      AsideTwice(c0, c1, chip, stray);
      c1 := chip;
      PhyReadEffect(View(), PHID2);
      var id2 := ReadPhyReg(PHID2);
      AsideTwice(c0, c1, chip, stray);
    }

    // Receive filters, interrupt enables, pointer auto-increment, and reception on.
    method Enable()
      requires Quiet() && bnBank == BANK_3 && chip.Bsel() == 3 && !Bit(chip.file[0x1E], 6)
      modifies this`chip, this`bnBank
      ensures Quiet() && Weak(View()) && bnBank == BANK_1 && chip.Bsel() == 0
      ensures Enabled(old(chip), chip)
    {
      hide Do, Or, Bit, Same, Interrupts;
      ghost var e1, e2 := chip.file[0x1E], chip.file[0x1F];
      Reaches(View(), Write(ERXFCON, 0xA1));
      WriteReg(ERXFCON, 0xA1);
      Reaches(View(), Write(EIE, 0xFF));
      WriteReg(EIE, 0xFF);
      MaskBits();
      OrBit(e1, 0x80, 6);
      OrBit(e1, 0x80, 7);
      Reaches(View(), Set(ECON2, 0x80));
      BitFieldSet(ECON2, 0x80);
      OrBit(chip.file[0x1F], 0x04, 2);
      OrBit(chip.file[0x1F], 0x04, 3);
      QuarterBits(chip.file[0x1F], e2, 3);
      KeepLowBits(chip.file[0x1F], 0x04);
      Reaches(View(), Set(ECON1, 0x04));
      BitFieldSet(ECON1, 0x04);
    }
  }

  lemma AfterReset(c: Chip, d: Chip)
    requires d == c.Reset()
    ensures d.Bsel() == 0 && d.mii.Idle? && d.out == c.out && d.taken == c.taken && d.log == c.log && d.phy == c.phy
    ensures Fresh(d.(startup := 0)) && MacReset(d)
  {
  }

  lemma AfterClock(c: Chip, d: Chip)
    requires d == BankCache.Select(c, BANK_0).(startup := 0) && c.mii.Idle? && Fresh(c.(startup := 0))
    ensures d.Bsel() == 0 && d.mii.Idle? && d.out == c.out && d.taken == c.taken && d.log == c.log && d.phy == c.phy
    ensures Fresh(d)
    ensures MacReset(c) ==> MacReset(d)
  {
    SelectSelects(c, BANK_0);
  }

  lemma FreshEconTwo(c: Chip)
    requires Fresh(c)
    ensures !Bit(c.file[0x1E], 6) && !c.Sending() && c.startup == 0 && c.file[0x1C] == 0 && c.Packets() == 0
  {
    MaskBits();
    ZeroBit(3);
    QuarterBits(c.file[0x1F], 0, 3);
  }

  // The receive ring, empty, and the transmit area behind it.
  predicate BuffersLaid(c: Chip)
  {
    RingLaid(c) && c.Etxst() == TX_START && c.Etxnd() == TX_END
  }

  predicate RingLaid(c: Chip)
  {
    c.Erxst() == c.Erxwrpt() == RX_START && c.Erxnd() == c.Erxrdpt() == RX_END
  }

  lemma LaidByBytes(c: Chip)
    requires c.file[0x08] == c.file[0x0E] == 0x00 && c.file[0x09] == c.file[0x0F] == 0x00
    requires c.file[0x0A] == c.file[0x0C] == 0xFF && c.file[0x0B] == c.file[0x0D] == 0x17
    ensures RingLaid(c)
  {
    hide Pair;
    PairValue(0x00, 0x00);
    PairValue(0xFF, 0x17);
  }

  // Full duplex receive and transmit, frames up to 1500 bytes announced but larger ones let
  // through (HFRMEN), and the station address.
  predicate MacSet(c: Chip, d: Chip)
  {
    && d.Reg(MACLCON2) == ClearBits(c.Reg(MACLCON2), 0x80)
    && d.Reg(MACON1) == SetBits(c.Reg(MACON1), 0x0D)
    && d.Reg(MACON3) == SetBits(c.Reg(MACON3), 0xF5)
    && d.Reg(MAMXFLL) == Lo(MAX_FRAME) && d.Reg(MAMXFLH) == Hi(MAX_FRAME)
    && d.Reg(MABBIPG) == 0x15 && d.Reg(MAIPGL) == 0x12
    && [d.Reg(MAADR0), d.Reg(MAADR1), d.Reg(MAADR2), d.Reg(MAADR3), d.Reg(MAADR4), d.Reg(MAADR5)] == MAC_ADDRESS
  }

  predicate Enabled(c: Chip, d: Chip)
  {
    && d.file[0x38] == 0xA1 && d.file[0x1B] == 0xFF && d.AutoInc() && d.Receiving()
    && d.file[0x1E] == SetBits(c.file[0x1E], 0x80)
    && d.file[0x1F] == SetBits(c.file[0x1F] - c.file[0x1F] % 4, 0x04)
    && d.Sending() == c.Sending() && d == c.(file := d.file, falls := d.falls)
    && forall i | 0 <= i < 128 && i !in {0x1B, 0x1E, 0x1F, 0x38} :: d.file[i] == c.file[i]
  }

  // The stages of start-up put together: c2 has its buffers laid out, c3 its PHY and c4 its
  // MAC set.
  lemma StartUpOver(c: Chip, c2: Chip, c3: Chip, c4: Chip, d: Chip)
    requires BuffersLaid(c2) && MacSet(c3, c4) && Enabled(c4, d) && Fresh(c4) && !c4.Sending() && MacReset(c3)
    requires c3.file[..0x10] == c2.file[..0x10] && c4.file[..0x10] == c3.file[..0x10]
    requires c4.mii.Idle? && c4.out == c.out && c4.taken == c.taken && c4.log == c.log
    requires c4.phy == c.phy[PHCON1 := OrWord(c.phy[PHID2], 0x0100)][PHIE := OrWord(c.phy[PHIE], 0x0012)]
    ensures Started(c, d) && d.Erdpt() == c2.Erdpt() && StartedCells(c, d)
  {
    hide Or, AndNot, Bit, OrWord, Pair, BuffersLaid, SetBits;
    LayoutKept(c2, c3, c4, d);
    LayoutCells(d);
    MacCells(c3, c4);
    EnableCells(c4, d);
    hide Chip.Erdpt;
    MaskBits();
    OrBit(c3.Reg(MACON3), 0xF5, 2);
    SameCells(c4, d);
  }

  lemma SameCells(c: Chip, d: Chip)
    requires d.file[0x40..0x66] == c.file[0x40..0x66]
    ensures forall i | 0x40 <= i < 0x66 :: d.file[i] == c.file[i]
    ensures d.file[0x60..0x66] == c.file[0x60..0x66]
  {
    forall i | 0x40 <= i < 0x66 ensures d.file[i] == c.file[i] {
      assert d.file[0x40..0x66][i - 0x40] == c.file[0x40..0x66][i - 0x40];
    }
  }

  lemma EnableCells(c: Chip, d: Chip)
    requires Enabled(c, d) && Fresh(c)
    ensures d.file[0x1E] == 0x80 && d.file[0x1F] == 0x04 && d.file[0x1C] == 0 && d.file[0x39] == 0
    ensures d.file[0x40..0x66] == c.file[0x40..0x66]
  {
    assert SetBits(0x80, 0x80) == 0x80 && SetBits(0, 0x04) == 0x04;
    hide SetBits, Bit;
  }

  lemma LayoutKept(c2: Chip, c3: Chip, c4: Chip, d: Chip)
    requires c3.file[..0x10] == c2.file[..0x10] && c4.file[..0x10] == c3.file[..0x10] && Enabled(c4, d)
    ensures d.Erdpt() == c2.Erdpt() && (BuffersLaid(c2) ==> BuffersLaid(d))
  {
    forall i | 0 <= i < 0x10 ensures d.file[i] == c2.file[i] {
      assert c3.file[..0x10][i] == c2.file[..0x10][i];
      assert c4.file[..0x10][i] == c3.file[..0x10][i];
    }
    hide Bit;
  }

  const MAC_ADDRESS: seq<Byte> := [0xED, 0x6A, 0xAF, 0x16, 0x7C, 0x04]

  lemma SameMac(c: Chip, d: Chip)
    requires Outside(c, d, 0x60, 0x66)
    ensures d.Reg(MACLCON2) == c.Reg(MACLCON2) && d.Reg(MACON1) == c.Reg(MACON1) && d.Reg(MACON3) == c.Reg(MACON3)
    ensures d.Reg(MAMXFLL) == c.Reg(MAMXFLL) && d.Reg(MAMXFLH) == c.Reg(MAMXFLH)
    ensures d.Reg(MABBIPG) == c.Reg(MABBIPG) && d.Reg(MAIPGL) == c.Reg(MAIPGL)
  {
  }

  // The chip d when start-up of c is over.
  predicate Started(c: Chip, d: Chip)
  {
    && BuffersLaid(d)
    && d.Reg(MAMXFLL) == Lo(MAX_FRAME) && d.Reg(MAMXFLH) == Hi(MAX_FRAME) && Bit(d.Reg(MACON3), 2)
    && d.Packets() == 0 && d.AutoInc() && d.Receiving() && !d.Sending() && d.mii.Idle? && d.startup == 0
    && d.Reg(EIE) == 0xFF && d.file[0x1C] == 0 && d.out == c.out && d.taken == c.taken && d.log == c.log
    && d.phy == c.phy[PHCON1 := OrWord(c.phy[PHID2], 0x0100)][PHIE := OrWord(c.phy[PHIE], 0x0012)]
  }

  // Nothing received, nothing pending, nothing enabled, as after a reset.
  predicate Fresh(c: Chip)
  {
    c.file[0x1C] == 0 && c.file[0x1E] == 0x80 && c.file[0x39] == 0 && c.file[0x1F] < 4 && c.startup == 0
  }

  // The MAC registers that start-up reads before it writes them.
  predicate MacReset(c: Chip) { c.file[0x40] == 0 && c.file[0x42] == 0 && c.file[0x49] == 0x37 }

  // Every register start-up sets, by its cell: the five shared registers lie at 0x1B to 0x1F, the
  // others of bank b from 0x20 * b on.
  predicate StartedCells(c: Chip, d: Chip)
  {
    // ETXST, ETXND, ERXST, ERXND, ERXRDPT, ERXWRPT
    && d.file[0x04..0x10] == [0x00, 0x18, 0xFF, 0x1F, 0x00, 0x00, 0xFF, 0x17, 0xFF, 0x17, 0x00, 0x00]
    // EIE, EIR, ECON2 with AUTOINC, ECON1 with RXEN; ERXFCON and EPKTCNT
    && d.file[0x1B] == 0xFF && d.file[0x1C] == 0x00 && d.file[0x1E] == 0x80 && d.file[0x1F] == 0x04
    && d.file[0x38] == 0xA1 && d.file[0x39] == 0x00
    // MACON1, MACON3, MABBIPG, MAIPGL, MACLCON2, MAMXFL
    && d.file[0x40] == 0x0D && d.file[0x42] == 0xF5 && d.file[0x44] == 0x15 && d.file[0x46] == 0x12
    && d.file[0x49] == 0x37 && d.file[0x4A] == 0xDC && d.file[0x4B] == 0x05
    // MAADR1, MAADR0, MAADR3, MAADR2, MAADR5, MAADR4
    && d.file[0x60..0x66] == [0x6A, 0xED, 0x16, 0xAF, 0x04, 0x7C]
    // PHCON1 gets PHID2 with bit 8, PHIE its own value with bits 1 and 4
    && d.phy == c.phy[0x00 := OrWord(c.phy[0x03], 0x0100)][0x12 := OrWord(c.phy[0x12], 0x0012)]
  }

  lemma LayoutCells(c: Chip)
    requires BuffersLaid(c)
    ensures c.file[0x04..0x10] == [0x00, 0x18, 0xFF, 0x1F, 0x00, 0x00, 0xFF, 0x17, 0xFF, 0x17, 0x00, 0x00]
  {
    hide Pair;
    CellsOf(c.file[0x04], c.file[0x05], 0x00, 0x18, TX_START);
    CellsOf(c.file[0x06], c.file[0x07], 0xFF, 0x1F, TX_END);
    CellsOf(c.file[0x08], c.file[0x09], 0x00, 0x00, RX_START);
    CellsOf(c.file[0x0A], c.file[0x0B], 0xFF, 0x17, RX_END);
    CellsOf(c.file[0x0C], c.file[0x0D], 0xFF, 0x17, RX_END);
    CellsOf(c.file[0x0E], c.file[0x0F], 0x00, 0x00, RX_START);
  }

  lemma CellsOf(lo: Byte, hi: Byte, l: Byte, h: Byte, w: Word)
    requires Pair(lo, hi) == w && w == l + 0x100 * h
    ensures lo == l && hi == h
  {
    PairValue(lo, hi);
  }

  lemma MacCells(c: Chip, d: Chip)
    requires MacSet(c, d) && MacReset(c)
    ensures d.file[0x40] == 0x0D && d.file[0x42] == 0xF5 && d.file[0x44] == 0x15 && d.file[0x46] == 0x12
    ensures d.file[0x49] == 0x37 && d.file[0x4A] == 0xDC && d.file[0x4B] == 0x05
    ensures d.file[0x60..0x66] == [0x6A, 0xED, 0x16, 0xAF, 0x04, 0x7C]
  {
    assert SetBits(0, 0x0D) == 0x0D && SetBits(0, 0xF5) == 0xF5 && ClearBits(0x37, 0x80) == 0x37;
    MacNames(c, d);
  }

  lemma MacNames(c: Chip, d: Chip)
    requires MacSet(c, d)
    ensures d.file[0x49] == ClearBits(c.file[0x49], 0x80) && d.file[0x40] == SetBits(c.file[0x40], 0x0D)
    ensures d.file[0x42] == SetBits(c.file[0x42], 0xF5) && d.file[0x44] == 0x15 && d.file[0x46] == 0x12
    ensures d.file[0x4A] == 0xDC && d.file[0x4B] == 0x05
    ensures [d.file[0x61], d.file[0x60], d.file[0x63], d.file[0x62], d.file[0x65], d.file[0x64]] ==
            [0xED, 0x6A, 0xAF, 0x16, 0x7C, 0x04]
  {
    hide SetBits, ClearBits;
  }

  lemma OutsideKeeps(c: Chip, d: Chip, lo: nat, hi: nat)
    requires Outside(c, d, lo, hi) && Fresh(c) && (hi <= 0x10 || 0x40 <= lo)
    ensures hi <= 0x10 ==> d.Mird() == c.Mird()
    ensures Fresh(d) && d.mii == c.mii && d.phy == c.phy && d.out == c.out && d.taken == c.taken && d.log == c.log
    ensures lo >= 0x10 ==> d.file[..0x10] == c.file[..0x10]
    ensures hi <= 0x10 && MacReset(c) ==> MacReset(d)
  {
    assert c.file[0x1F] / 4 == 0;
  }

  lemma AsideKeeps(c: Chip, d: Chip, stray: bool)
    requires Aside(c, d, stray) && Fresh(c) && d.file[0x1C] == c.file[0x1C]
    ensures Fresh(d) && d.out == c.out && d.taken == c.taken && d.log == c.log && d.file[..0x10] == c.file[..0x10]
    ensures MacReset(c) ==> MacReset(d)
  {
    assert c.file[0x1F] / 4 == 0;
  }

  lemma OutsideTwice(a: Chip, b: Chip, c: Chip, l: nat, h: nat, l': nat, h': nat)
    requires Outside(a, b, l, h) && Outside(b, c, l', h') && l <= l' <= h' <= h
    ensures Outside(a, c, l, h)
  {
  }

  // MAC registers: banks 2 and 3 without the MII registers.
  predicate PlainMac(r: Byte)
  {
    && r % 0x40 < 0x20
    && MacMii(BankBits(BankOf(r)), Offset(r))
    && if BankOf(r) == BANK_2 then !(0x12 <= Offset(r) <= 0x19) else Offset(r) != 0x0A
  }

  // All plain MAC registers but one.
  predicate KeepsMac(c: Chip, d: Chip, but: Byte)
  {
    forall r: Byte | PlainMac(r) && r != but :: d.Reg(r) == c.Reg(r)
  }

  // An access to a plain register of bank 2 or 3.
  lemma MacAccess(c: Chip, p: Port, x: Access, lo: nat, hi: nat)
    requires Weak(p) && !StaleFor(p, x.Bank())
    requires (x.ReadMac? || x.Write?) && PlainMac(x.reg) && lo <= Cell(BankBits(x.Bank()), Offset(x.reg)) < hi
    requires c == p.chip || Outside(c, p.chip, lo, hi)
    ensures var (q, v) := Do(p, x);
            && q.bnBank == x.Bank() && q.chip.Bsel() == BankBits(x.Bank()) && Weak(q)
            && Outside(c, q.chip, lo, hi) && q.chip.mem == p.chip.mem && q.chip.latch == p.chip.latch
            && (x.ReadMac? ==> v == p.chip.Reg(x.reg))
            && (x.Write? ==> q.chip.Reg(x.reg) == x.value)
            && KeepsMac(p.chip, q.chip, if x.Write? then x.reg else 0)
  {
    hide Do, KeepsMac;
    Reaches(p, x);
    assert Outside(c, p.chip, lo, hi);
    KeptMac(p.chip, Do(p, x).0.chip, if x.Write? then x.reg else 0);
  }

  lemma KeptMac(c: Chip, d: Chip, but: Byte)
    requires but == 0 || PlainMac(but)
    requires forall i | 0x40 <= i < 0x80 && (but == 0 || i != Cell(BankBits(BankOf(but)), Offset(but))) ::
               d.file[i] == c.file[i]
    ensures KeepsMac(c, d, but)
  {
    hide Chip.Reg;
    forall r: Byte | PlainMac(r) && r != but ensures d.Reg(r) == c.Reg(r) {
      OwnCell(c, d, r, but);
    }
  }

  lemma OwnCell(c: Chip, d: Chip, r: Byte, s: Byte)
    requires PlainMac(r)
    ensures 0x40 <= Cell(BankBits(BankOf(r)), Offset(r)) < 0x80
    ensures PlainMac(s) && r != s ==> Cell(BankBits(BankOf(r)), Offset(r)) != Cell(BankBits(BankOf(s)), Offset(s))
    ensures c.Reg(r) == c.file[Cell(BankBits(BankOf(r)), Offset(r))]
    ensures d.Reg(r) == d.file[Cell(BankBits(BankOf(r)), Offset(r))]
  {
  }

  lemma TransmitPart(a: Chip, b: Chip, c: Chip)
    requires Outside(a, b, 0x00, 0x10) && Outside(b, c, 0x04, 0x08)
    ensures Outside(a, c, 0x00, 0x10)
    ensures c.Erdpt() == b.Erdpt()
    ensures RingLaid(b) ==> RingLaid(c)
  {
  }

  // Nothing but the registers in [lo, hi) and BSEL differs; the ERXRDPT latch and the memory
  // are not compared.
  predicate Outside(c: Chip, d: Chip, lo: nat, hi: nat)
  {
    && d == c.(file := d.file, latch := d.latch, mem := d.mem)
    && d.file[0x1F] / 4 == c.file[0x1F] / 4
    && forall i | 0 <= i < 128 && !(lo <= i < hi) && i != 0x1F :: d.file[i] == c.file[i]
  }

  function PointerWrite(c: Chip, reg: Byte, v: Byte): File
    requires reg < 0x10
  {
    if reg == ERXSTL || reg == ERXSTH then c.file[reg := v][reg + 6 := v]
    else if reg == ERXRDPTL || reg == ERXWRPTL || reg == ERXWRPTH then c.file
    else if reg == ERXRDPTH then c.file[0x0C := c.latch][0x0D := v]
    else c.file[reg := v]
  }

  // A write to a pointer register of bank 0, from wherever the driver stands.
  lemma BankZeroWrite(c: Chip, p: Port, reg: Byte, v: Byte, lo: nat, hi: nat)
    requires Weak(p) && lo <= reg < hi <= 0x10 && (c == p.chip || Outside(c, p.chip, lo, hi))
    requires reg == ERXSTL || reg == ERXSTH || reg == ERXRDPTH ==> lo == 0 && hi == 0x10
    ensures var q := Do(p, Write(reg, v)).0;
            && Weak(q) && q.bnBank == p.bnBank && q.chip.Bsel() == 0 && q.chip.mem == p.chip.mem
            && Outside(c, q.chip, lo, hi)
            && q.chip.latch == (if reg == ERXRDPTL then v else p.chip.latch)
            && q.chip.file == PointerWrite(p.chip, reg, v)[0x1F := q.chip.file[0x1F]]
  {
    hide Do, Chip.Poke;
    Reaches(p, Write(reg, v));
    PointerPoke(BankCache.Select(p.chip, BANK_0), reg, v);
    assert Outside(c, p.chip, lo, hi);
  }

  lemma PointerPoke(c: Chip, reg: Byte, v: Byte)
    requires reg < 0x10
    ensures c.Poke(0, reg, v) == c.(file := PointerWrite(c, reg, v), latch := if reg == ERXRDPTL then v else c.latch)
  {
  }

  // ----- SPI transactions, from chip select low to high -----

  lemma SwitchQuiet(p: Port, b: Bank)
    requires p.chip.bus == Released
    ensures Switch(p, b).chip.bus == Released && (b == p.bnBank ==> Switch(p, b) == p)
  {
  }

  lemma WriteTransaction(c: Chip, a: nat, v: Byte)
    requires c.bus == Released && a < 32
    ensures c.Select().Mosi(WCR * 0x20 + a).Mosi(v).Release() == c.Poke(c.Bsel(), a, v)
  {
    PokeAnyBus(c, Body(WCR, a, 0), c.Bsel(), a, v);
    hide Chip.Poke;
  }

  lemma PokeAnyBus(c: Chip, b: Bus, bank: nat, a: nat, v: Byte)
    requires bank < 4 && a < 32
    ensures c.(bus := b).Poke(bank, a, v) == c.Poke(bank, a, v).(bus := b) && c.Poke(bank, a, v).bus == c.bus
  {
  }

  lemma SetTransaction(c: Chip, a: nat, v: Byte)
    requires c.bus == Released && a < 32
    ensures c.Select().Mosi(BFS * 0x20 + a).Mosi(v).Release() == c.Masked(c.Bsel(), a, v, true)
  {
    PokeAnyBus(c, Body(BFS, a, 0), c.Bsel(), a, SetBits(c.Raw(c.Bsel(), a), v));
    hide Chip.Poke, Or;
  }

  lemma ClearTransaction(c: Chip, a: nat, v: Byte)
    requires c.bus == Released && a < 32
    ensures c.Select().Mosi(BFC * 0x20 + a).Mosi(v).Release() == c.Masked(c.Bsel(), a, v, false)
  {
    PokeAnyBus(c, Body(BFC, a, 0), c.Bsel(), a, ClearBits(c.Raw(c.Bsel(), a), v));
    hide Chip.Poke, AndNot;
  }

  lemma PollAnyBus(c: Chip, b: Bus, bank: nat, a: nat)
    requires bank < 4 && a < 32
    ensures c.(bus := b).Polled(bank, a) == c.Polled(bank, a).(bus := b) && c.Polled(bank, a).bus == c.bus
    ensures c.(bus := b).Peek(bank, a) == c.Peek(bank, a)
    ensures a != 0x1F ==> c.Polled(bank, a).Bsel() == c.Bsel()
  {
  }

  lemma ReadTransaction(c: Chip, a: nat)
    requires c.bus == Released && a < 32
    ensures var (v, d) := c.Select().Mosi(RCR * 0x20 + a).Miso();
            (d.Release(), v) == if MacMii(c.Bsel(), a) then (c, 0) else (c.Polled(c.Bsel(), a), c.Peek(c.Bsel(), a))
  {
    PollAnyBus(c, Body(RCR, a, 0), c.Bsel(), a);
    hide Chip.Polled, Chip.Peek, Chip.Poke, Chip.Masked, MacMii;
    assert c.Select().Mosi(RCR * 0x20 + a) == c.(bus := Body(RCR, a, 0));
  }

  lemma ReadTwiceTransaction(c: Chip, a: nat)
    requires c.bus == Released && a < 32
    ensures var (u, d) := c.Select().Mosi(RCR * 0x20 + a).Miso();
            var (v, e) := d.Miso();
            var f := if MacMii(c.Bsel(), a) then c else c.Polled(c.Bsel(), a);
            (e.Release(), v) == (f.Polled(c.Bsel(), a), f.Peek(c.Bsel(), a))
  {
    var n := c.Bsel();
    var f := if MacMii(n, a) then c else c.Polled(n, a);
    PollAnyBus(c, Body(RCR, a, 0), n, a);
    PollAnyBus(f, Body(RCR, a, 1), n, a);
    assert f.Bsel() == n by { PolledBsel(c, n, a); }
    hide Chip.Polled, Chip.Peek, Chip.Poke, Chip.Masked, MacMii;
    assert c.Select().Mosi(RCR * 0x20 + a) == c.(bus := Body(RCR, a, 0));
    assert c.(bus := Body(RCR, a, 0)).Miso().1 == f.(bus := Body(RCR, a, 1));
  }

  lemma PolledBsel(c: Chip, bank: nat, a: nat)
    requires bank < 4 && a < 32
    ensures c.Polled(bank, a).Bsel() == c.Bsel()
  {
  }

  // The two halves of a bank switch.
  lemma ClearBsel(c: Chip)
    ensures c.Masked(c.Bsel(), 0x1F, 0x03, false) == BankCache.Select(c, BANK_0)
  {
    ClearLowBits(c.file[0x1F]);
    hide AndNot;
  }

  lemma SetBsel(c: Chip, bits: nat)
    requires c.Bsel() == 0 && bits < 4
    ensures c.Masked(0, 0x1F, bits, true) == c.With(0x1F, c.file[0x1F] + bits)
  {
    SetLowBits(c.file[0x1F], bits);
    hide Or;
  }

  lemma SelectTwice(c: Chip, b: Bank)
    ensures BankCache.Select(BankCache.Select(c, b), b) == BankCache.Select(c, b)
  {
    SelectSelects(c, b);
    var d := BankCache.Select(c, b);
    assert BankCache.Select(d, b).file == d.file;
  }

  // The two PHY operations as functions of the chip and the cached bank.
  function PhyRead(p: Port, addr: Byte): (Port, Word)
  {
    Collected(Port(Completed(BankCache.Select(Requested(p, addr).chip, BANK_3)), BANK_3))
  }

  function PhyWrite(p: Port, addr: Byte, data: Word): Port
  {
    Port(Completed(BankCache.Select(Commanded(p, addr, data).chip, BANK_3)), BANK_3)
  }

  // The accesses that start a write.
  function Commanded(p: Port, addr: Byte, data: Word): Port
  {
    Do(Do(Do(p, Write(MIREGADR, addr)).0, Write(MIWRL, Lo(data))).0, Write(MIWRH, Hi(data))).0
  }

  // The first access of a PHY operation reaches bank 2.
  predicate ReachesMii(p: Port) { p.bnBank != BANK_2 || p.chip.Bsel() == 2 }

  // The accesses that ask for a PHY register, and those that fetch the answer.
  function Requested(p: Port, addr: Byte): Port
  {
    var q := Do(p, Write(MIREGADR, addr)).0;
    var (r, command) := Do(q, ReadMac(MICMD));
    Do(r, Write(MICMD, SetBits(command, 1))).0
  }

  function Collected(p: Port): (Port, Word)
  {
    var (q, command) := Do(p, ReadMac(MICMD));
    var r := Do(q, Write(MICMD, ClearBits(command, 1))).0;
    var (s, hi) := Do(r, ReadMac(MIRDH));
    var (t, lo) := Do(s, ReadMac(MIRDL));
    (t, Pair(lo, hi))
  }

  lemma RequestEffect(p: Port, addr: Byte)
    requires Weak(p) && addr < 32 && p.chip.mii.Idle?
    ensures var q, reaches := Requested(p, addr), ReachesMii(p);
            && q.bnBank == BANK_2 && q.chip.Bsel() == (if reaches then 2 else 0)
            && q.chip.mii == (if reaches then Reading(addr, q.chip.latency) else Idle)
            && q.chip.phy == p.chip.phy && q.chip.bus == p.chip.bus
            && q.chip.file[0x1C] == p.chip.file[0x1C] && q.chip.Mird() == p.chip.Mird()
            && Aside(p.chip, q.chip, !reaches)
  {
    SelectSelects(p.chip, BANK_2);
    var c1 := Switch(p, BANK_2).chip;
    var n := c1.Bsel();
    assert n == 2 || n == 0;
    var a, b := if n == 2 then 0x54 else 0x14, if n == 2 then 0x52 else 0x12;
    var q1 := Do(p, Write(MIREGADR, addr)).0;
    assert q1 == Port(c1.With(a, addr), BANK_2);
    var (q2, command) := Do(q1, ReadMac(MICMD));
    assert q2 == q1 && command == c1.file[b];
    OrOne(command);
    var q3 := Do(q2, Write(MICMD, SetBits(command, 1))).0;
    assert q3.chip.file == c1.file[a := addr][b := SetBits(command, 1)];
    assert q3 == Requested(p, addr);
  }

  lemma CommandEffect(p: Port, addr: Byte, data: Word)
    requires Weak(p) && addr < 32 && p.chip.mii.Idle?
    ensures var q, reaches := Commanded(p, addr, data), ReachesMii(p);
            && q.bnBank == BANK_2 && q.chip.Bsel() == (if reaches then 2 else 0)
            && q.chip.mii == (if reaches then Writing(addr, data, q.chip.latency) else Idle)
            && q.chip.phy == p.chip.phy && q.chip.bus == p.chip.bus
            && q.chip.file[0x1C] == p.chip.file[0x1C] && q.chip.Mird() == p.chip.Mird()
            && Aside(p.chip, q.chip, !reaches)
  {
    SelectSelects(p.chip, BANK_2);
    var c1 := Switch(p, BANK_2).chip;
    var n := c1.Bsel();
    assert n == 2 || n == 0;
    var a := if n == 2 then 0x54 else 0x14;
    PairSplits(data);
    var q1 := Do(p, Write(MIREGADR, addr)).0;
    assert q1 == Port(c1.With(a, addr), BANK_2);
    var q2 := Do(q1, Write(MIWRL, Lo(data))).0;
    assert q2 == Port(c1.With(a, addr).With(a + 2, Lo(data)), BANK_2);
    var q3 := Do(q2, Write(MIWRH, Hi(data))).0;
    assert q3.chip.file == c1.file[a := addr][a + 2 := Lo(data)][a + 3 := Hi(data)];
    assert q3 == Commanded(p, addr, data);
  }

  lemma CollectEffect(p: Port)
    requires p.bnBank == BANK_3 && p.chip.Bsel() == 3 && p.chip.mii.Idle?
    ensures var (q, r) := Collected(p);
            && r == p.chip.Mird() && q.bnBank == BANK_2 && q.chip.Bsel() == 2 && q.chip.mii.Idle?
            && q.chip.phy == p.chip.phy && q.chip.bus == p.chip.bus
            && q.chip.file[0x1C] == p.chip.file[0x1C] && q.chip.Mird() == p.chip.Mird()
            && q.chip.Reg(MICMD) % 2 == 0
            && Aside(p.chip, q.chip, false)
  {
    SelectSelects(p.chip, BANK_2);
    var c1 := Switch(p, BANK_2).chip;
    var (q1, command) := Do(p, ReadMac(MICMD));
    assert q1 == Port(c1, BANK_2) && command == c1.file[0x52];
    AndNotOne(command);
    var q2 := Do(q1, Write(MICMD, ClearBits(command, 1))).0;
    assert q2 == Port(c1.With(0x52, ClearBits(command, 1)), BANK_2);
    assert Do(q2, ReadMac(MIRDH)).0 == q2 && Do(q2, ReadMac(MIRDL)).0 == q2;
    assert (q2, p.chip.Mird()) == Collected(p);
  }

  lemma CompletedEffect(c: Chip)
    requires c.mii.Idle? || c.mii.reg < 32
    ensures var d := Completed(BankCache.Select(c, BANK_3));
            && d.Bsel() == 3 && d.mii.Idle? && d.bus == c.bus && Aside(c, d, false)
            && d.file[0x1C] == (if c.mii.Reading? && c.mii.reg == PHIR then ClearBits(c.file[0x1C], 0x10)
                                else c.file[0x1C])
            && d.Mird() == (if c.mii.Reading? then c.phy[c.mii.reg] else c.Mird())
            && d.phy == (if c.mii.Writing? && PlainPhy(c.mii.reg) then c.phy[c.mii.reg := c.mii.value] else c.phy)
  {
    SelectSelects(c, BANK_3);
    if c.mii.Reading? { PairSplits(c.phy[c.mii.reg]); }
  }

  // What a PHY operation leaves alone: memory, the frames sent, and every register outside
  // the MII block and BSEL. A stray one also spoils DMA registers of bank 0.
  predicate Aside(c: Chip, d: Chip, stray: bool)
  {
    && d.mem == c.mem && d.out == c.out && d.taken == c.taken && d.log == c.log && d.falls == c.falls
    && d.latch == c.latch && d.latency == c.latency && d.startup == c.startup
    && d.file[0x1F] / 4 == c.file[0x1F] / 4
    && forall i | 0 <= i < 128 ::
         || d.file[i] == c.file[i] || i == 0x1F || i == 0x1C || 0x52 <= i <= 0x59
         || (stray && i in {0x12, 0x14, 0x16, 0x17})
  }

  lemma AsideTwice(a: Chip, b: Chip, c: Chip, stray: bool)
    requires Aside(a, b, stray) && (Aside(b, c, stray) || Aside(b, c, false))
    ensures Aside(a, c, stray)
  {
  }

  // Reading a PHY register. When the first access goes astray nothing is asked of the PHY,
  // and the answer is whatever the previous read left in MIRD.
  lemma PhyReadEffect(p: Port, addr: Byte)
    requires Weak(p) && addr < 32 && p.chip.mii.Idle?
    ensures var (q, r) := PhyRead(p, addr);
            && q.bnBank == BANK_2 && q.chip.Bsel() == 2
            && q.chip.mii.Idle? && q.chip.phy == p.chip.phy && q.chip.Reg(MICMD) % 2 == 0
            && q.chip.bus == p.chip.bus && q.chip.Mird() == r
            && r == (if ReachesMii(p) then p.chip.phy[addr] else p.chip.Mird())
            && q.chip.file[0x1C] == (if ReachesMii(p) && addr == PHIR then ClearBits(p.chip.file[0x1C], 0x10)
                                     else p.chip.file[0x1C])
            && Aside(p.chip, q.chip, !ReachesMii(p))
  {
    hide Do, Aside, Completed, Chip.Bsel, Requested, Collected;
    var stray, c := !ReachesMii(p), Requested(p, addr).chip;
    var d := Completed(BankCache.Select(c, BANK_3));
    RequestEffect(p, addr);
    CompletedEffect(c);
    CollectEffect(Port(d, BANK_3));
    AsideTwice(p.chip, c, d, stray);
    AsideTwice(p.chip, d, PhyRead(p, addr).0.chip, stray);
  }

  lemma PhyWriteEffect(p: Port, addr: Byte, data: Word)
    requires Weak(p) && addr < 32 && p.chip.mii.Idle?
    ensures var q := PhyWrite(p, addr, data);
            && q.bnBank == BANK_3 && q.chip.Bsel() == 3 && q.chip.mii.Idle?
            && q.chip.bus == p.chip.bus && q.chip.Mird() == p.chip.Mird()
            && q.chip.phy == (if ReachesMii(p) && PlainPhy(addr) then p.chip.phy[addr := data] else p.chip.phy)
            && q.chip.file[0x1C] == p.chip.file[0x1C]
            && Aside(p.chip, q.chip, !ReachesMii(p))
  {
    hide Do, Aside, Completed, Chip.Bsel, Commanded;
    var stray, c := !ReachesMii(p), Commanded(p, addr, data).chip;
    CommandEffect(p, addr, data);
    CompletedEffect(c);
    AsideTwice(p.chip, c, PhyWrite(p, addr, data).chip, stray);
  }

  // Whatever is written to a plain PHY register is read back, the others keep their values
  // and no read is left pending, unless the first access of the write goes astray.
  lemma PhyRoundTrip(p: Port, addr: Byte, data: Word)
    requires Weak(p) && PlainPhy(addr) && p.chip.mii.Idle?
    ensures var (q, r) := PhyRead(PhyWrite(p, addr, data), addr);
            && q.chip.Reg(MICMD) % 2 == 0 && q.chip.mii.Idle?
            && r == q.chip.phy[addr]
            && q.chip.phy == if ReachesMii(p) then p.chip.phy[addr := data] else p.chip.phy
    ensures PhyRead(PhyWrite(p, addr, data), addr).1 == data <==> ReachesMii(p) || p.chip.phy[addr] == data
  {
    hide Do, Aside, Chip.Bsel, PhyRead, PhyWrite;
    PhyWriteEffect(p, addr, data);
    PhyReadEffect(PhyWrite(p, addr, data), addr);
  }

  // The MII operation under way, once it needs no more polls.
  function Ended(m: Mii): Mii
  {
    match m
    case Idle => Idle
    case Reading(r, _) => Reading(r, 0)
    case Writing(r, v, _) => Writing(r, v, 0)
  }

  // The chip when that operation is done.
  function Completed(c: Chip): Chip
  {
    match c.mii
    case Idle => c
    case Reading(r, _) => c.FinishRead(r)
    case Writing(r, v, _) => c.FinishWrite(r, v)
  }
}
