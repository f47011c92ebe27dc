// Interrupt priorities of the Armv8-M baseline core: four to a word, written by
// read-modify-write, and the split of a priority into preemption and sub-priority. All in
// 32-bit unsigned arithmetic, interrupt numbers included: a system exception is a number whose
// top bit is set.

module Nvic {

  // The number of priority bits the device implements.
  predicate PrioBits(bits: bv32) { 1 <= bits && bits <= 8 }

  predicate Negative(irq: bv32) { irq >= 0x8000_0000 }

  // Device interrupts 0 to 495, and the system exceptions -8 to -1.
  predicate HasPriority(irq: bv32) { irq < 496 || irq >= 0xFFFF_FFF8 }

  // _BIT_SHIFT, _IP_IDX and _SHP_IDX
  function BitShift(irq: bv32): bv32 { (irq & 0x03) * 8 }
  function IpIdx(irq: bv32): bv32 { irq >> 2 }
  function ShpIdx(irq: bv32): bv32 { ((irq & 0x0F) - 8) >> 2 }

  // The byte at a shift, and a word with another byte there.
  function ByteAt(word: bv32, shift: bv32): bv32
    requires shift <= 24
  {
    (word >> shift) & 0xFF
  }

  function PutByte(word: bv32, shift: bv32, x: bv32): bv32
    requires shift <= 24
  {
    (word & !((0xFF as bv32) << shift)) | (x << shift)
  }

  function Scaled(priority: bv32, bits: bv32): (x: bv32)
    requires PrioBits(bits)
    ensures x <= 0xFF
  {
    (priority << (8 - bits)) & 0xFF
  }

  // The read-modify-write of one priority, and its read.
  function SetLane(word: bv32, shift: bv32, priority: bv32, bits: bv32): bv32
    requires shift <= 24 && PrioBits(bits)
  {
    PutByte(word, shift, Scaled(priority, bits))
  }

  function GetLane(word: bv32, shift: bv32, bits: bv32): bv32
    requires shift <= 24 && PrioBits(bits)
  {
    ByteAt(word, shift) >> (8 - bits)
  }

  // priority modulo 2^bits
  function Implemented(priority: bv32, bits: bv32): bv32
    requires PrioBits(bits)
  {
    priority & (((1 as bv32) << bits) - 1)
  }

  predicate IsShift(shift: bv32) { shift == 0 || shift == 8 || shift == 16 || shift == 24 }

  lemma LaneReadsBack(word: bv32, shift: bv32, priority: bv32, bits: bv32)
    requires IsShift(shift) && PrioBits(bits)
    ensures GetLane(SetLane(word, shift, priority, bits), shift, bits) == Implemented(priority, bits)
  {
    hide ByteAt, PutByte, Scaled;
    ByteRead(word, shift, Scaled(priority, bits));
    ScaledBack(priority, bits);
  }

  // What the write leaves in the byte: the implemented bits, moved up.
  lemma LaneHolds(word: bv32, shift: bv32, priority: bv32, bits: bv32)
    requires IsShift(shift) && PrioBits(bits)
    ensures ByteAt(SetLane(word, shift, priority, bits), shift) == Implemented(priority, bits) << (8 - bits)
  {
    hide ByteAt, PutByte, Scaled, Implemented;
    ByteRead(word, shift, Scaled(priority, bits));
    ScaledUp(priority, bits);
  }

  lemma ScaledUp(priority: bv32, bits: bv32)
    requires PrioBits(bits)
    ensures Scaled(priority, bits) == Implemented(priority, bits) << (8 - bits)
  {
  }

  lemma ByteRead(word: bv32, shift: bv32, x: bv32)
    requires IsShift(shift) && x <= 0xFF
    ensures ByteAt(PutByte(word, shift, x), shift) == x
  {
  }

  lemma ScaledBack(priority: bv32, bits: bv32)
    requires PrioBits(bits)
    ensures Scaled(priority, bits) >> (8 - bits) == Implemented(priority, bits)
  {
  }

  lemma LaneKeepsOthers(word: bv32, shift: bv32, other: bv32, priority: bv32, bits: bv32)
    requires IsShift(shift) && IsShift(other) && other != shift && PrioBits(bits)
    ensures GetLane(SetLane(word, shift, priority, bits), other, bits) == GetLane(word, other, bits)
  {
    hide ByteAt, PutByte, Scaled;
    ByteKept(word, shift, other, Scaled(priority, bits));
  }

  lemma ByteKept(word: bv32, shift: bv32, other: bv32, x: bv32)
    requires IsShift(shift) && IsShift(other) && other != shift && x <= 0xFF
    ensures ByteAt(PutByte(word, shift, x), other) == ByteAt(word, other)
  {
    if shift == 0 { FirstByte(word, other, x); }
    else if shift == 8 { SecondByte(word, other, x); }
    else if shift == 16 { ThirdByte(word, other, x); }
    else { FourthByte(word, other, x); }
  }

  lemma FirstByte(w: bv32, other: bv32, x: bv32)
    requires x <= 0xFF && (other == 8 || other == 16 || other == 24)
    ensures ((((w & 0xFFFF_FF00) | x) >> other) & 0xFF) == ((w >> other) & 0xFF)
  {
  }

  lemma SecondByte(w: bv32, other: bv32, x: bv32)
    requires x <= 0xFF && (other == 0 || other == 16 || other == 24)
    ensures ((((w & 0xFFFF_00FF) | (x << 8)) >> other) & 0xFF) == ((w >> other) & 0xFF)
  {
  }

  lemma ThirdByte(w: bv32, other: bv32, x: bv32)
    requires x <= 0xFF && (other == 0 || other == 8 || other == 24)
    ensures ((((w & 0xFF00_FFFF) | (x << 16)) >> other) & 0xFF) == ((w >> other) & 0xFF)
  {
  }

  lemma FourthByte(w: bv32, other: bv32, x: bv32)
    requires x <= 0xFF && (other == 0 || other == 8 || other == 16)
    ensures ((((w & 0x00FF_FFFF) | (x << 24)) >> other) & 0xFF) == ((w >> other) & 0xFF)
  {
  }

  // ----- preemption priority and sub-priority -----

  function PreemptBits(group: bv32, bits: bv32): bv32
  {
    var g := group & 0x07;
    if 7 - g > bits then bits else 7 - g
  }

  // g - 7 wraps when the first branch is not taken and g is below 7; adding bits wraps it back.
  function SubBits(group: bv32, bits: bv32): bv32
  {
    var g := group & 0x07;
    if g + bits < 7 then 0 else (g - 7) + bits
  }

  lemma BitsSplit(group: bv32, bits: bv32)
    requires PrioBits(bits)
    ensures PreemptBits(group, bits) + SubBits(group, bits) == bits
    ensures PreemptBits(group, bits) <= 7 && SubBits(group, bits) <= 8
  {
  }

  // x & ((1 << n) - 1)
  function Low(x: bv32, n: bv32): bv32
    requires n <= 8
  {
    x & (((1 as bv32) << n) - 1)
  }

  // The two fields put together, and the upper one taken out again.
  function Join(upper: bv32, lower: bv32, s: bv32): bv32
    requires s <= 8
  {
    (upper << s) | lower
  }

  function Upper(w: bv32, p: bv32, s: bv32): bv32
    requires p <= 8 && s <= 8
  {
    (w >> s) & (((1 as bv32) << p) - 1)
  }

  function Encode(group: bv32, preempt: bv32, sub: bv32, bits: bv32): bv32
    requires PrioBits(bits)
  {
    BitsSplit(group, bits);
    var p, s := PreemptBits(group, bits), SubBits(group, bits);
    Join(Low(preempt, p), Low(sub, s), s)
  }

  datatype Parts = Parts(preempt: bv32, sub: bv32)

  function Decoded(priority: bv32, group: bv32, bits: bv32): Parts
    requires PrioBits(bits)
  {
    BitsSplit(group, bits);
    var p, s := PreemptBits(group, bits), SubBits(group, bits);
    Parts(Upper(priority, p, s), Low(priority, s))
  }

  method Decode(priority: bv32, group: bv32, bits: bv32) returns (preempt: bv32, sub: bv32)
    requires PrioBits(bits)
    ensures Parts(preempt, sub) == Decoded(priority, group, bits)
    ensures preempt < (1 as bv32) << PreemptBits(group, bits) && sub < (1 as bv32) << SubBits(group, bits)
    ensures Encode(group, preempt, sub, bits) == Implemented(priority, bits)
    ensures var r, g := RegisterByte(priority, bits), group & 0x07;
            && preempt == r >> Greater(g + 1, 8 - bits)
            && sub == (r & (((1 as bv32) << (g + 1)) - 1)) >> (8 - bits)
  {
    hide PreemptBits, SubBits, PrioBits, Upper, Low, Implemented, Join, RegisterByte, Greater;
    BitsSplit(group, bits);
    BinaryPoint(priority, group, bits);
    EncodeDecode(group, priority, bits);
    UpperBound(priority, PreemptBits(group, bits), SubBits(group, bits));
    LowBound(priority, SubBits(group, bits));
    var preemptBits := PreemptBits(group, bits);
    var subBits := SubBits(group, bits);
    preempt := Upper(priority, preemptBits, subBits);
    sub := Low(priority, subBits);
  }

  lemma JoinThenSplit(x: bv32, y: bv32, p: bv32, s: bv32)
    requires p <= 7 && s <= 8
    ensures Upper(Join(Low(x, p), Low(y, s), s), p, s) == Low(x, p)
    ensures Low(Join(Low(x, p), Low(y, s), s), s) == Low(y, s)
  {
    hide Low, Join, Upper;
    LowBound(x, p);
    LowBound(y, s);
    SplitUpper(Low(x, p), Low(y, s), p, s);
    SplitLower(Low(x, p), Low(y, s), s);
  }

  lemma UpperBound(w: bv32, p: bv32, s: bv32)
    requires p <= 8 && s <= 8
    ensures Upper(w, p, s) < (1 as bv32) << p
  {
  }

  lemma LowBound(x: bv32, n: bv32)
    requires n <= 8
    ensures Low(x, n) < (1 as bv32) << n
  {
  }

  lemma SplitUpper(x: bv32, y: bv32, p: bv32, s: bv32)
    requires p <= 7 && s <= 8 && x < (1 as bv32) << p && y < (1 as bv32) << s
    ensures Upper(Join(x, y, s), p, s) == x
  {
  }

  lemma SplitLower(x: bv32, y: bv32, s: bv32)
    requires s <= 8 && y < (1 as bv32) << s
    ensures Low(Join(x, y, s), s) == y
  {
  }

  lemma SplitThenJoin(w: bv32, p: bv32, s: bv32)
    requires p <= 7 && s <= 8 && p + s <= 8
    ensures Join(Low(Upper(w, p, s), p), Low(Low(w, s), s), s) == Low(w, p + s)
  {
    hide Low, Upper, Join;
    LowTwice(w, s);
    UpperTwice(w, p, s);
    if s == 0 { NothingBelow(w, p); }
    else if s <= 2 { SmallJoin(w, p, s); }
    else if s <= 5 { MiddleJoin(w, p, s); }
    else { LargeJoin(w, p, s); }
  }

  lemma LowTwice(w: bv32, s: bv32)
    requires s <= 8
    ensures Low(Low(w, s), s) == Low(w, s)
  {
  }

  lemma UpperTwice(w: bv32, p: bv32, s: bv32)
    requires p <= 7 && s <= 8
    ensures Low(Upper(w, p, s), p) == Upper(w, p, s)
  {
  }

  lemma NothingBelow(w: bv32, p: bv32)
    requires p <= 7
    ensures Join(Upper(w, p, 0), Low(w, 0), 0) == Low(w, p)
  {
  }

  lemma SmallJoin(w: bv32, p: bv32, s: bv32)
    requires p <= 7 && 1 <= s && s <= 2
    requires p + s <= 8
    ensures Join(Upper(w, p, s), Low(w, s), s) == Low(w, p + s)
  {
  }

  lemma MiddleJoin(w: bv32, p: bv32, s: bv32)
    requires p <= 5 && 3 <= s && s <= 5 && p + s <= 8
    ensures Join(Upper(w, p, s), Low(w, s), s) == Low(w, p + s)
  {
  }

  lemma LargeJoin(w: bv32, p: bv32, s: bv32)
    requires p <= 2 && 6 <= s && s <= 8 && p + s <= 8
    ensures Join(Upper(w, p, s), Low(w, s), s) == Low(w, p + s)
  {
  }

  // Decoding gives back both parts, reduced to their fields, for every group and device.
  lemma DecodeEncode(group: bv32, preempt: bv32, sub: bv32, bits: bv32)
    requires PrioBits(bits)
    ensures PreemptBits(group, bits) <= 8 && SubBits(group, bits) <= 8
    ensures Decoded(Encode(group, preempt, sub, bits), group, bits) ==
            Parts(Low(preempt, PreemptBits(group, bits)), Low(sub, SubBits(group, bits)))
  {
    hide PreemptBits, SubBits, PrioBits, Low, Join, Upper;
    BitsSplit(group, bits);
    JoinThenSplit(preempt, sub, PreemptBits(group, bits), SubBits(group, bits));
  }

  // Encoding what was decoded gives the priority back, reduced to the implemented bits.
  lemma EncodeDecode(group: bv32, priority: bv32, bits: bv32)
    requires PrioBits(bits)
    ensures var parts := Decoded(priority, group, bits);
            Encode(group, parts.preempt, parts.sub, bits) == Implemented(priority, bits)
  {
    hide PreemptBits, SubBits, Low, Join, Upper, Implemented;
    BitsSplit(group, bits);
    SplitThenJoin(priority, PreemptBits(group, bits), SubBits(group, bits));
    LowIsImplemented(priority, bits);
  }

  lemma LowIsImplemented(x: bv32, bits: bv32)
    requires PrioBits(bits)
    ensures Low(x, bits) == Implemented(x, bits)
  {
  }

  lemma SmallIsImplemented(x: bv32, bits: bv32)
    requires PrioBits(bits) && x < ((1 as bv32) << bits)
    ensures Implemented(x, bits) == x
  {
  }

  // ----- where the binary point lies -----

  // The register byte of a priority: its implemented bits are the upper ones.
  function RegisterByte(priority: bv32, bits: bv32): bv32
    requires PrioBits(bits)
  {
    Implemented(priority, bits) << (8 - bits)
  }

  function Greater(a: bv32, b: bv32): bv32 { if a < b then b else a }

  // For group g the hardware compares the bits above bit g of the register byte for preemption,
  // and the others after that. Those are the two parts, whatever the widths are called.
  lemma BinaryPoint(priority: bv32, group: bv32, bits: bv32)
    requires PrioBits(bits)
    ensures var r, g, parts := RegisterByte(priority, bits), group & 0x07, Decoded(priority, group, bits);
            && parts.preempt == r >> Greater(g + 1, 8 - bits)
            && parts.sub == (r & (((1 as bv32) << (g + 1)) - 1)) >> (8 - bits)
  {
    hide PreemptBits, SubBits, Upper, Low, Implemented;
    BitsSplit(group, bits);
    var g := group & 0x07;
    Widths(group, bits);
    PreemptAt(priority, g, bits);
    SubAt(priority, g, bits);
  }

  lemma Widths(group: bv32, bits: bv32)
    requires PrioBits(bits)
    ensures group & 0x07 <= 7
    ensures PreemptBits(group, bits) == PreemptBits(group & 0x07, bits)
    ensures SubBits(group, bits) == SubBits(group & 0x07, bits)
  {
  }

  lemma PreemptAt(x: bv32, g: bv32, bits: bv32)
    requires PrioBits(bits) && g <= 7
    ensures PreemptBits(g, bits) <= 8 && SubBits(g, bits) <= 8
    ensures Upper(x, PreemptBits(g, bits), SubBits(g, bits)) == RegisterByte(x, bits) >> Greater(g + 1, 8 - bits)
  {
  }

  lemma SubAt(x: bv32, g: bv32, bits: bv32)
    requires PrioBits(bits) && g <= 7
    ensures SubBits(g, bits) <= 8
    ensures Low(x, SubBits(g, bits)) == (RegisterByte(x, bits) & (((1 as bv32) << (g + 1)) - 1)) >> (8 - bits)
  {
  }

  // An encoded pair has no bits but the implemented ones.
  lemma EncodeFits(group: bv32, preempt: bv32, sub: bv32, bits: bv32)
    requires PrioBits(bits)
    ensures Implemented(Encode(group, preempt, sub, bits), bits) == Encode(group, preempt, sub, bits)
  {
    hide PreemptBits, SubBits, Low, Join, Implemented;
    BitsSplit(group, bits);
    JoinFits(preempt, sub, PreemptBits(group, bits), SubBits(group, bits));
    LowIsImplemented(Encode(group, preempt, sub, bits), bits);
  }

  lemma JoinFits(x: bv32, y: bv32, p: bv32, s: bv32)
    requires p <= 7 && s <= 8 && p + s <= 8
    ensures Low(Join(Low(x, p), Low(y, s), s), p + s) == Join(Low(x, p), Low(y, s), s)
  {
  }

  // ----- the priority registers -----

  // NVIC->IPR[0..123] and SCB->SHPR[0..1]
  datatype Register = Ipr(index: bv32) | Shpr(index: bv32)

  datatype Word = Word(value: bv32)

  type File = map<Register, Word>

  ghost predicate Complete(file: File)
  {
    forall r: Register :: (if r.Ipr? then r.index < 124 else r.index < 2) ==> r in file
  }

  // The register an interrupt's priority lies in.
  function RegisterOf(irq: bv32): Register { if Negative(irq) then Shpr(ShpIdx(irq)) else Ipr(IpIdx(irq)) }

  // Two interrupts share a register and a lane only if they are the same.
  lemma PlacesDiffer(a: bv32, b: bv32)
    requires HasPriority(a) && HasPriority(b) && a != b
    ensures BitShift(a) != BitShift(b) || RegisterOf(a) != RegisterOf(b)
  {
  }

  // Byte by byte the priority registers are an array indexed by the interrupt number, or by the
  // exception number, 16 above it, from exception 8 on.
  lemma PlaceIsByte(irq: bv32)
    requires HasPriority(irq)
    ensures var r := RegisterOf(irq);
            4 * r.index + BitShift(irq) / 8 == if Negative(irq) then irq + 16 - 8 else irq
    ensures RegisterOf(irq).Shpr? <==> irq >= 0xFFFF_FFF8
  {
  }

  lemma PlacesExist(irq: bv32)
    requires HasPriority(irq)
    ensures IsShift(BitShift(irq)) && BitShift(irq) <= 24
    ensures var r := RegisterOf(irq); if r.Ipr? then r.index < 124 else r.index < 2
  {
  }

  function Priority(file: File, irq: bv32, bits: bv32): bv32
    requires Complete(file) && HasPriority(irq) && PrioBits(bits)
  {
    PlacesExist(irq);
    GetLane(file[RegisterOf(irq)].value, BitShift(irq), bits)
  }

  // The file after the read-modify-write for one interrupt.
  function Written(file: File, irq: bv32, priority: bv32, bits: bv32): File
    requires Complete(file) && HasPriority(irq) && PrioBits(bits)
  {
    PlacesExist(irq);
    var r := RegisterOf(irq);
    file[r := Word(SetLane(file[r].value, BitShift(irq), priority, bits))]
  }

  lemma WriteThenRead(file: File, irq: bv32, other: bv32, priority: bv32, bits: bv32)
    requires Complete(file) && HasPriority(irq) && HasPriority(other) && PrioBits(bits)
    ensures Complete(Written(file, irq, priority, bits))
    ensures Priority(Written(file, irq, priority, bits), other, bits) ==
            if other == irq then Implemented(priority, bits) else Priority(file, other, bits)
  {
    hide HasPriority, RegisterOf, BitShift, SetLane, GetLane, Implemented, PrioBits, IsShift;
    PlacesExist(irq);
    PlacesExist(other);
    var word := file[RegisterOf(irq)].value;
    LaneReadsBack(word, BitShift(irq), priority, bits);
    if other != irq {
      PlacesDiffer(irq, other);
      if RegisterOf(other) == RegisterOf(irq) {
        LaneKeepsOthers(word, BitShift(irq), BitShift(other), priority, bits);
      }
    }
  }

  // A write asked for, and what a sequence of them leaves.
  datatype Write = Write(irq: bv32, priority: bv32)

  function LastWrite(writes: seq<Write>, irq: bv32, initial: bv32, bits: bv32): bv32
    requires PrioBits(bits)
    decreases writes
  {
    if writes == [] then initial
    else
      var n := |writes| - 1;
      if writes[n].irq == irq then Implemented(writes[n].priority, bits) else LastWrite(writes[..n], irq, initial, bits)
  }

  class Controller {
    const bits: bv32
    var file: File

    ghost predicate Valid()
      reads this
    {
      PrioBits(bits) && Complete(file)
    }

    function GetPriority(irq: bv32): bv32
      requires Valid() && HasPriority(irq)
      reads this
    {
      Priority(file, irq, bits)
    }

    // The packed words behave like a map from interrupts to priorities.
    method SetPriority(irq: bv32, priority: bv32)
      requires Valid() && HasPriority(irq)
      modifies this`file
      ensures Valid() && file == Written(old(file), irq, priority, bits)
      ensures forall other | HasPriority(other) ::
                GetPriority(other) == if other == irq then Implemented(priority, bits) else old(GetPriority(other))
    {
      hide HasPriority, BitShift, SetLane, GetLane, Implemented, PrioBits, Priority;
      PlacesExist(irq);
      forall other | HasPriority(other)
        ensures Complete(Written(file, irq, priority, bits))
        ensures Priority(Written(file, irq, priority, bits), other, bits) ==
                if other == irq then Implemented(priority, bits) else Priority(file, other, bits)
      {
        WriteThenRead(file, irq, other, priority, bits);
      }
      if !Negative(irq) {
        var r := Ipr(IpIdx(irq));
        file := file[r := Word(SetLane(file[r].value, BitShift(irq), priority, bits))];
      } else {
        var r := Shpr(ShpIdx(irq));
        file := file[r := Word(SetLane(file[r].value, BitShift(irq), priority, bits))];
      }
    }

    // Any sequence of writes: each interrupt ends up with the last priority written to it.
    method SetAll(writes: seq<Write>)
      requires Valid() && forall i | 0 <= i < |writes| :: HasPriority(writes[i].irq)
      modifies this`file
      ensures Valid()
      ensures forall irq | HasPriority(irq) :: GetPriority(irq) == LastWrite(writes, irq, old(GetPriority(irq)), bits)
    {
      hide HasPriority, Implemented, PrioBits, Priority, Complete;
      for i := 0 to |writes|
        invariant Valid()
        invariant forall irq | HasPriority(irq) ::
                    GetPriority(irq) == LastWrite(writes[..i], irq, old(GetPriority(irq)), bits)
      {
        SetPriority(writes[i].irq, writes[i].priority);
        assert writes[..i + 1][..i] == writes[..i];
      }
      assert writes[..|writes|] == writes;
    }
  }
}
