// The ENC28J60 as the driver sees it over SPI, after the Microchip data sheet DS39662:
// four banks of 32 control registers of which the last five are shared, an 8 KB buffer,
// the pointer registers that step through it, a packet counter, and the MII side.

module Registers {
  import opened Bytes

  // A register is named by its bank in the two top bits and its address in the five low ones.
  type Bank = b: Byte | b % 0x40 == 0 witness 0
  const BANK_0: Bank := 0x00
  const BANK_1: Bank := 0x40
  const BANK_2: Bank := 0x80
  const BANK_3: Bank := 0xC0

  // value & 0xC0, bank >> 6, and 0x1F & register
  function BankOf(reg: Byte): Bank { reg / 0x40 * 0x40 }
  function BankBits(b: Bank): (n: nat)
    ensures n < 4
  {
    b / 0x40
  }
  function Offset(reg: Byte): (a: nat)
    ensures a < 32
  {
    reg % 0x20
  }

  const ERDPTL: Byte := 0x00
  const ERDPTH: Byte := 0x01
  const EWRPTL: Byte := 0x02
  const EWRPTH: Byte := 0x03
  const ETXSTL: Byte := 0x04
  const ETXSTH: Byte := 0x05
  const ETXNDL: Byte := 0x06
  const ETXNDH: Byte := 0x07
  const ERXSTL: Byte := 0x08
  const ERXSTH: Byte := 0x09
  const ERXNDL: Byte := 0x0A
  const ERXNDH: Byte := 0x0B
  const ERXRDPTL: Byte := 0x0C
  const ERXRDPTH: Byte := 0x0D
  const ERXWRPTL: Byte := 0x0E
  const ERXWRPTH: Byte := 0x0F
  const EIE: Byte := 0x1B
  const EIR: Byte := 0x1C
  const ESTAT: Byte := 0x1D
  const ECON2: Byte := 0x1E
  const ECON1: Byte := 0x1F
  const ERXFCON: Byte := 0x40 + 0x18
  const MACON1: Byte := 0x80 + 0x00
  const MACON3: Byte := 0x80 + 0x02
  const MABBIPG: Byte := 0x80 + 0x04
  const MAIPGL: Byte := 0x80 + 0x06
  const MACLCON2: Byte := 0x80 + 0x09
  const MAMXFLL: Byte := 0x80 + 0x0A
  const MAMXFLH: Byte := 0x80 + 0x0B
  const MICMD: Byte := 0x80 + 0x12
  const MIREGADR: Byte := 0x80 + 0x14
  const MIWRL: Byte := 0x80 + 0x16
  const MIWRH: Byte := 0x80 + 0x17
  const MIRDL: Byte := 0x80 + 0x18
  const MIRDH: Byte := 0x80 + 0x19
  const MAADR1: Byte := 0xC0 + 0x00
  const MAADR0: Byte := 0xC0 + 0x01
  const MAADR3: Byte := 0xC0 + 0x02
  const MAADR2: Byte := 0xC0 + 0x03
  const MAADR5: Byte := 0xC0 + 0x04
  const MAADR4: Byte := 0xC0 + 0x05
  const MISTAT: Byte := 0xC0 + 0x0A

  const PHCON1 := 0x00
  const PHID1 := 0x02
  const PHID2 := 0x03
  const PHCON2 := 0x10
  const PHIE := 0x12
  const PHIR := 0x13
  const PHLCON := 0x14

  // The SPI opcodes, in the three top bits of a command byte.
  const RCR := 0
  const RBM := 1
  const WCR := 2
  const WBM := 3
  const BFS := 4
  const BFC := 5
  const BUFFER := 0x1A
  const SOFT_RESET: Byte := 0xFF

  // Addresses 0x1B..0x1F are the same five registers in every bank.
  predicate Common(a: nat) { 0x1B <= a }

  function Cell(bank: nat, a: nat): (c: nat)
    requires bank < 4 && a < 32
    ensures c < 128
  {
    if Common(a) then a else 32 * bank + a
  }

  // Registers of the MAC and MII blocks answer one dummy byte late and ignore bit-field commands.
  predicate MacMii(bank: nat, a: nat)
  {
    !Common(a) && (bank == 2 || (bank == 3 && (a <= 0x05 || a == 0x0A)))
  }

  // PHY registers that hold what was written to them.
  // They are PHCON1, PHCON2, PHIE and PHLCON.
  predicate PlainPhy(r: nat) { r == 0x00 || r == 0x10 || r == 0x12 || r == 0x14 }
}

module Enc28j60 {
  import opened Bytes
  import opened Ring
  import opened Registers

  // An MII operation needs `left` further polls of MISTAT before it is done.
  datatype Mii = Idle | Reading(reg: nat, left: nat) | Writing(reg: nat, value: Word, left: nat)

  // Where an SPI transaction stands: chip select high, opcode awaited, or `done` bytes into
  // the body of a command.
  datatype Bus = Released | Opcode | Body(op: nat, arg: nat, done: nat)

  type File = f: seq<Byte> | |f| == 128 witness seq(128, _ => 0)
  type Phy = p: seq<Word> | |p| == 32 witness seq(32, _ => 0)

  // What the network side does by itself.
  datatype Event =
    | Arrive(frame: Frame)           // a frame passes the filters
    | Scribble(bytes: seq<Byte>)     // a reception is abandoned half-way
    | Overrun                        // a frame is refused for lack of room
    | TxDone(failed: bool)           // a transmission ends
    | LinkChange

  // INTIE is set and a flag is both enabled and up. Bit 6 is up while a packet is counted.
  predicate Interrupts(eie: Byte, eir: Byte, count: Byte)
  {
    Bit(eie, 7) && exists b | 0 <= b < 7 :: Bit(eie, b) && if b == 6 then count > 0 else Bit(eir, b)
  }

  datatype Chip = Chip(
    file: File,
    mem: Memory,
    latch: Byte,             // ERXRDPTL until ERXRDPTH is written
    phy: Phy,
    mii: Mii,
    latency: nat,            // polls an MII operation takes
    startup: nat,            // polls until the clock is stable
    bus: Bus,
    out: seq<seq<Byte>>,     // history: the frames put on the wire
    taken: seq<Frame>,       // history: the frames accepted into the receive ring
    log: seq<Event>,         // history: all that the network side did
    falls: nat)              // history: the falling edges of the INT pin
  {
    function Raw(bank: nat, a: nat): Byte
      requires bank < 4 && a < 32
    {
      file[Cell(bank, a)]
    }

    // The register a driver-side name stands for.
    function Reg(reg: Byte): Byte { Raw(BankBits(BankOf(reg)), Offset(reg)) }

    // The bank the chip itself has selected: ECON1.BSEL.
    function Bsel(): (n: nat)
      ensures n < 4
    {
      file[0x1F] % 4
    }

    function With(cell: nat, v: Byte): Chip
      requires cell < 128
    {
      this.(file := file[cell := v])
    }

    // The INT pin, active low.
    predicate IntLow() { Interrupts(file[0x1B], file[0x1C], Packets()) }

    // The chip d, which comes next, with the edge of the pin.
    function Watch(d: Chip): Chip { d.(falls := falls + if !IntLow() && d.IntLow() then 1 else 0) }

    function Erdpt(): Word { Pair(file[0x00], file[0x01]) }
    function Ewrpt(): Word { Pair(file[0x02], file[0x03]) }
    function Etxst(): Word { Pair(file[0x04], file[0x05]) }
    function Etxnd(): Word { Pair(file[0x06], file[0x07]) }
    function Erxst(): Word { Pair(file[0x08], file[0x09]) }
    function Erxnd(): Word { Pair(file[0x0A], file[0x0B]) }
    function Erxrdpt(): Word { Pair(file[0x0C], file[0x0D]) }
    function Erxwrpt(): Word { Pair(file[0x0E], file[0x0F]) }
    function Packets(): Byte { file[0x20 + 0x19] }
    function Mird(): Word { Pair(file[0x40 + 0x18], file[0x40 + 0x19]) }

    // ----- control registers -----

    // What a read of a control register returns, and what it does to the chip.
    function Peek(bank: nat, a: nat): Byte
      requires bank < 4 && a < 32
    {
      if a == 0x1C then
        // bit 7 is not implemented
        var flags := Raw(bank, a) % 0x80;
        if Packets() > 0 then SetBits(flags, 0x40) else ClearBits(flags, 0x40)
      else if a == 0x1D then (if startup == 0 then SetBits(Raw(bank, a), 1) else ClearBits(Raw(bank, a), 1))
      else if bank == 3 && a == 0x0A then (if mii.Idle? || mii.left == 0 then 0 else 1)
      else Raw(bank, a)
    }

    function Polled(bank: nat, a: nat): Chip
      requires bank < 4 && a < 32
    {
      if a == 0x1D then this.(startup := if startup == 0 then 0 else startup - 1)
      else if bank == 3 && a == 0x0A then
        match mii
        case Idle => this
        case Reading(r, left) => if left > 0 then this.(mii := Reading(r, left - 1)) else FinishRead(r)
        case Writing(r, v, left) => if left > 0 then this.(mii := Writing(r, v, left - 1)) else FinishWrite(r, v)
      else this
    }

    // Reading PHIR, register 0x13, also clears the link-change flag EIR.4.
    function FinishRead(r: nat): Chip
    {
      var v := if r < 32 then phy[r] else 0;
      var c := this.(mii := Idle, file := file[0x58 := Lo(v)][0x59 := Hi(v)]);
      if r == 0x13 then c.With(0x1C, ClearBits(file[0x1C], 0x10)) else c
    }

    function FinishWrite(r: nat, v: Word): Chip
    {
      this.(mii := Idle, phy := if PlainPhy(r) then phy[r := v] else phy)
    }

    // A write to a control register.
    function Poke(bank: nat, a: nat, v: Byte): Chip
      requires bank < 4 && a < 32
    {
      if a == 0x1E then
        // PKTDEC counts a packet down and clears itself
        if Bit(v, 6) then
          var c := With(0x1E, ClearBits(v, 0x40));
          if Packets() > 0 then c.With(0x39, Packets() - 1) else c
        else With(0x1E, v)
      else if a == 0x1B || a == 0x1C then Watch(With(a, v))
      else if Common(a) then With(a, v)
      else if bank == 0 && a == 0x0C then this.(latch := v)
      else if bank == 0 && a == 0x0D then this.(file := file[0x0C := latch][0x0D := v])
      else if bank == 0 && (a == 0x08 || a == 0x09) then
        // the write pointer follows ERXST
        this.(file := file[a := v][a + 6 := v])
      else if bank == 0 && (a == 0x0E || a == 0x0F) then this
      else if bank == 1 && a == 0x19 then this
      else if bank == 2 && (a == 0x18 || a == 0x19) then this
      else if bank == 3 && a == 0x0A then this
      else if bank == 2 && a == 0x17 then
        With(0x57, v).(mii := Writing(file[0x54] % 32, Pair(file[0x56], v), latency))
      else if bank == 2 && a == 0x12 && v % 2 == 1 then
        With(0x52, v).(mii := Reading(file[0x54] % 32, latency))
      else With(Cell(bank, a), v)
    }

    function Masked(bank: nat, a: nat, m: Byte, up: bool): Chip
      requires bank < 4 && a < 32
    {
      if MacMii(bank, a) then this
      else Poke(bank, a, if up then SetBits(Raw(bank, a), m) else ClearBits(Raw(bank, a), m))
    }

    // ----- buffer memory -----

    function AutoInc(): bool { Bit(file[0x1E], 7) }

    function ReadByte(): (r: (Byte, Chip))
    {
      var p := Erdpt() % 0x2000;
      var n := if p == Erxnd() then Erxst() else (p + 1) % 0x2000;
      (mem[p], if AutoInc() then this.(file := file[0x00 := Lo(n)][0x01 := Hi(n)]) else this)
    }

    function WriteByte(b: Byte): Chip
    {
      var p := Ewrpt() % 0x2000;
      var n := (p + 1) % 0x2000;
      var c := this.(mem := mem[p := b]);
      if AutoInc() then c.(file := file[0x02 := Lo(n)][0x03 := Hi(n)]) else c
    }

    // ----- the SPI bus, byte by byte -----

    function Select(): Chip { this.(bus := Opcode) }

    function Release(): Chip { this.(bus := Released) }

    // A byte from the host. The top three bits of a command byte are the opcode: 0 reads and 2
    // writes a control register, 4 sets and 5 clears bits in one; 1 reads and 3 writes the buffer,
    // with 26 in the low bits; 0xFF is the soft reset.
    function Mosi(b: Byte): Chip
    {
      match bus
      case Released => this
      case Opcode =>
        if b == 0xFF then Reset().(bus := Body(7, 31, 0)) else this.(bus := Body(b / 0x20, b % 0x20, 0))
      case Body(op, arg, done) =>
        var c := if done == 0 && arg < 32 then
            if op == 2 then Poke(Bsel(), arg, b)
            else if op == 4 then Masked(Bsel(), arg, b, true)
            else if op == 5 then Masked(Bsel(), arg, b, false)
            else if op == 3 && arg == 26 then WriteByte(b)
            else this
          else if op == 3 && arg == 26 then WriteByte(b) else this;
        c.(bus := Body(op, arg, done + 1))
    }

    // A byte to the host. MAC and MII registers send a dummy byte first.
    function Miso(): (r: (Byte, Chip))
    {
      match bus
      case Body(op, arg, done) =>
        var r := if op == 0 && arg < 32 then
            if MacMii(Bsel(), arg) && done == 0 then (0, this) else (Peek(Bsel(), arg), Polled(Bsel(), arg))
          else if op == 1 && arg == 26 then ReadByte()
          else (0, this);
        (r.0, r.1.(bus := Body(op, arg, done + 1)))
      case _ => (0, this)
    }

    // Soft reset brings the control registers back, bank 0 included; not the PHY. ECON2.AUTOINC is
    // set and MACLCON2 holds 0x37; the other values that are not 0 do not matter here.
    function Reset(): Chip
    {
      this.(file := seq(128, i => if i == 0x1E then 0x80 else if i == 0x49 then 0x37
                                  else if i == 0x1D then file[0x1D] else 0),
            mii := Idle, latch := 0)
    }

    // ----- the network side -----

    function Receiving(): bool { Bit(file[0x1F], 2) }

    function Sending(): bool { Bit(file[0x1F], 3) }

    // EIR.TXIF
    function TxFlag(): bool { Bit(file[0x1C], 3) }

    predicate RingPointers() { Erxwrpt() < RING && Erxrdpt() < RING }

    // Reception never writes the byte ERXRDPT points at.
    predicate Room(n: nat)
    {
      RingPointers() && n <= Dist(Erxwrpt(), Erxrdpt())
    }

    function Raise(mask: Byte): Chip { With(0x1C, SetBits(file[0x1C], mask)) }

    predicate Accepts(f: Frame) { Receiving() && f.Fits() && Packets() < 255 && Room(f.Total()) }

    function Play(e: Event): Chip { Watch(Undergo(e)).(log := log + [e]) }

    function Undergo(e: Event): Chip
    {
      match e
      case Arrive(f) =>
        if Accepts(f) then
          var wr: Addr := Erxwrpt();
          var n := Next(wr, f);
          this.(mem := WriteRing(mem, wr, Record(wr, f)),
                file := file[0x0E := Lo(n)][0x0F := Hi(n)][0x39 := Packets() + 1],
                taken := taken + [f])
        else Raise(0x01)
      case Scribble(bytes) =>
        if Receiving() && Room(|bytes|) then this.(mem := WriteRing(mem, Erxwrpt(), bytes)) else this
      case Overrun => Raise(0x01)
      case TxDone(failed) =>
        if Sending() then
          With(0x1F, ClearBits(file[0x1F], 0x08))
          .(mem := StatusVector(), out := out + [Outgoing()])
          .Raise(if failed then 0x0A else 0x08)
        else this
      case LinkChange => Raise(0x10)
    }

    // The frame under transmission lies from the byte after ETXST, which holds the control
    // byte, up to ETXND inclusive.
    function Outgoing(): seq<Byte>
    {
      var a, b := Etxst() as nat % 0x2000 + 1, Etxnd() as nat % 0x2000 + 1;
      if a <= b then mem[a..b] else []
    }

    // Seven status bytes follow the frame.
    function StatusVector(): Memory
    {
      var e := Etxnd() % 0x2000;
      seq(MEMORY, i requires 0 <= i < MEMORY => if (i - e - 1) % 0x2000 < 7 then 0 else mem[i])
    }
  }

  function PlayAll(c: Chip, es: seq<Event>): Chip
    decreases es
  {
    if es == [] then c else PlayAll(c.Play(es[0]), es[1..])
  }

  lemma {:induction false} PlayAllLog(c: Chip, es: seq<Event>)
    ensures PlayAll(c, es).log == c.log + es
    decreases es
  {
    hide Chip.Undergo;
    if es != [] {
      PlayAllLog(c.Play(es[0]), es[1..]);
      assert es == [es[0]] + es[1..];
      SameLog(c, es[0]);
    }
  }

  // Only playing an event adds to the histories of events and edges.
  lemma SameLog(c: Chip, e: Event)
    ensures c.Undergo(e).log == c.log && c.Undergo(e).falls == c.falls
  {
    hide Bit, WriteRing, Record, SetBits, ClearBits;
  }
}
