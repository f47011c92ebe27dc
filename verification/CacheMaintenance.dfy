// Cache maintenance of the Cortex-M7: by address range, and by set and way.

module CacheMaintenance {
  import opened Bytes

  const LINE := 32
  const LINES := 0x800_0000

  type Int32 = x: int | -0x8000_0000 <= x < 0x8000_0000

  // Conversions between the two 32-bit types.
  function ToInt32(x: Word32): Int32 { if x < 0x8000_0000 then x else x - WRAP }
  function ToWord(x: int): Word32 { x % WRAP }

  // The cache line a register write names: bits 31..5, as lines have 32 bytes.
  function LineOf(x: Word32): (l: nat)
    ensures l < LINES
  {
    x / 32
  }

  // The bytes [addr, addr + size) of the address space, which goes round at 2^32, touch a line.
  ghost predicate Touched(addr: Word32, size: int, line: nat)
  {
    exists b :: 0 <= b < size && ByteLine(addr, b) == line
  }

  function ByteLine(addr: Word32, b: int): nat { LineOf(ToWord(addr + b)) }

  // The writes hit exactly the lines the range touches, each once.
  ghost predicate Exact(written: seq<Word32>, addr: Word32, size: int)
  {
    && (forall i | 0 <= i < |written| :: Touched(addr, size, LineOf(written[i])))
    && (forall line | 0 <= line < LINES && Touched(addr, size, line) ::
          exists i :: 0 <= i < |written| && LineOf(written[i]) == line)
    && (forall i, j | 0 <= i < j < |written| :: LineOf(written[i]) != LineOf(written[j]))
  }

  // SCB_InvalidateICache_by_Addr and its three siblings for the data cache: the same loop on
  // different registers.
  method MaintainByAddr(addr: Word32, size: Int32) returns (written: seq<Word32>)
    ensures Exact(written, addr, size)
    ensures size <= 0 ==> written == []
    ensures forall i | 0 <= i < |written| :: written[i] == ToWord(addr + 32 * i)
  {
    written := [];
    if size > 0 {
      var opSize: Int32 := ToInt32(ToWord(size + addr % LINE));
      var opAddr: Word32 := addr;
      ghost var left := size + addr % LINE;
      var again := true;
      while again
        invariant left == size + addr % LINE - LINE * |written|
        invariant opAddr == ToWord(addr + LINE * |written|)
        invariant ToWord(opSize) == ToWord(left) && left > -LINE
        invariant again == (left > 0)
        invariant forall i | 0 <= i < |written| :: written[i] == ToWord(addr + LINE * i)
        decreases left
      {
        written := written + [opAddr];
        WordSum(addr + LINE * (|written| - 1), LINE);
        opAddr := ToWord(opAddr + LINE);
        SizeStep(opSize, left);
        opSize := ToInt32(ToWord(opSize - LINE));
        left := left - LINE;
        again := opSize > 0;
      }
      WritesAreExact(written, addr, size);
    }
  }

  // The size may have overflowed at the start; one step later it is right.
  lemma SizeStep(opSize: Int32, left: int)
    requires ToWord(opSize) == ToWord(left) && 0 < left < 0x8000_0000 + LINE
    ensures ToInt32(ToWord(opSize - LINE)) == left - LINE
  {
    WordSum(opSize, -LINE);
    WordSum(left, -LINE);
  }

  lemma WordSum(a: int, b: int)
    ensures ToWord(a + b) == ToWord(ToWord(a) + b)
  {
    var q := a / WRAP;
    assert a + b == WRAP * q + (a % WRAP + b);
  }

  // Taking the line of an address commutes with going round.
  lemma LineWraps(x: nat)
    ensures LineOf(ToWord(x)) == x / LINE % LINES
  {
    var q, r := x / WRAP, x % WRAP;
    assert x == LINE * (LINES * q) + r;
    assert x / LINE == LINES * q + r / LINE;
  }

  lemma WritesAreExact(written: seq<Word32>, addr: Word32, size: int)
    requires 0 < size < 0x8000_0000
    requires forall i | 0 <= i < |written| :: written[i] == ToWord(addr + LINE * i)
    requires -LINE < size + addr % LINE - LINE * |written| <= 0
    ensures Exact(written, addr, size)
  {
    var first, off := addr / LINE, addr % LINE;
    assert addr == LINE * first + off;
    forall i | 0 <= i < |written|
      ensures LineOf(written[i]) == (first + i) % LINES && Touched(addr, size, LineOf(written[i]))
    {
      LineWraps(addr + LINE * i);
      assert (addr + LINE * i) / LINE == first + i;
      var b := if i == 0 then 0 else LINE * i - off;
      assert 0 <= b < size && (addr + b) / LINE == first + i;
      LineWraps(addr + b);
      assert ByteLine(addr, b) == LineOf(written[i]);
    }
    forall i, j | 0 <= i < j < |written| ensures LineOf(written[i]) != LineOf(written[j]) {
      RoundOnce(first + i, first + j);
    }
    forall line | 0 <= line < LINES && Touched(addr, size, line)
      ensures exists i :: 0 <= i < |written| && LineOf(written[i]) == line
    {
      var b :| 0 <= b < size && ByteLine(addr, b) == line;
      LineWraps(addr + b);
      var i := (addr + b) / LINE - first;
      assert 0 <= i < |written| && LineOf(written[i]) == line;
    }
  }

  lemma RoundOnce(a: nat, b: nat)
    requires a < b < a + LINES
    ensures a % LINES != b % LINES
  {
    var qa, qb := a / LINES, b / LINES;
    assert a == LINES * qa + a % LINES && b == LINES * qb + b % LINES;
  }

  // ----- by set and way -----

  datatype SetWay = SetWay(set_: nat, way: nat)

  // ((set << 5) & 0x3FE0) | ((way << 30) & 0xC0000000)
  function Operand(p: SetWay): Word32 { p.set_ % 0x200 * 0x20 + p.way % 4 * 0x4000_0000 }

  // Unsigned post-decrement.
  function Decrement(x: Word32): Word32 { if x == 0 then WRAP - 1 else x - 1 }

  // One set, and then all of them, in the order the loops take.
  function Row(set_: nat, ways: nat): seq<SetWay>
    decreases ways
  {
    [SetWay(set_, ways)] + if ways == 0 then [] else Row(set_, ways - 1)
  }

  function Sweep(sets: nat, ways: nat): seq<SetWay>
    decreases sets
  {
    Row(sets, ways) + if sets == 0 then [] else Sweep(sets - 1, ways)
  }

  function Operands(ps: seq<SetWay>): (ws: seq<Word32>)
    ensures |ws| == |ps|
  {
    seq(|ps|, i requires 0 <= i < |ps| => Operand(ps[i]))
  }

  // The nested do-while loops of the five whole-cache routines; the bounds are the NUMSETS and
  // ASSOCIATIVITY fields of CCSIDR.
  method SweepSetWay(numSets: Word32, numWays: Word32) returns (written: seq<Word32>)
    requires numSets < 0x8000 && numWays < 0x400
    ensures written == Operands(Sweep(numSets, numWays))
  {
    hide Operand, Operands, Row, Sweep;
    written := [];
    var sets: Word32 := numSets;
    ghost var done: seq<SetWay> := [];
    NoOperands();
    var more := true;
    while more
      invariant more ==> sets <= numSets
      invariant done + Rest(Sweep(sets, numWays), more) == Sweep(numSets, numWays)
      invariant written == Operands(done)
      decreases more, sets
    {
      var part := SweepWays(sets, numWays);
      OperandsConcat(done, Row(sets, numWays));
      written := written + part;
      ghost var next := done + Row(sets, numWays);
      SweepFirst(sets, numWays);
      assert done + Sweep(sets, numWays) == next + Rest(Sweep(Decrement(sets), numWays), sets != 0);
      done := next;
      more := sets != 0;
      sets := Decrement(sets);
    }
    assert done + [] == done;
  }

  // The inner loop.
  method SweepWays(sets: Word32, numWays: Word32) returns (written: seq<Word32>)
    ensures written == Operands(Row(sets, numWays))
  {
    hide Operand, Operands, Row;
    written := [];
    var ways: Word32 := numWays;
    ghost var done: seq<SetWay> := [];
    NoOperands();
    var more := true;
    while more
      invariant more ==> ways <= numWays
      invariant done + Rest(Row(sets, ways), more) == Row(sets, numWays)
      invariant written == Operands(done)
      decreases more, ways
    {
      ghost var p := SetWay(sets, ways);
      OperandsConcat(done, [p]);
      OneOperand(p);
      RowFirst(sets, ways);
      written := written + [Operand(SetWay(sets, ways))];
      ghost var next := done + [p];
      assert done + Row(sets, ways) == next + Rest(Row(sets, Decrement(ways)), ways != 0);
      done := next;
      more := ways != 0;
      ways := Decrement(ways);
    }
    assert done + [] == done;
  }

  ghost function Rest(s: seq<SetWay>, more: bool): seq<SetWay> { if more then s else [] }

  lemma OperandsConcat(a: seq<SetWay>, b: seq<SetWay>)
    ensures Operands(a + b) == Operands(a) + Operands(b)
  {
  }

  lemma NoOperands()
    ensures Operands([]) == []
  {
  }

  lemma OneOperand(p: SetWay)
    ensures Operands([p]) == [Operand(p)]
  {
  }

  lemma CountConcat(a: seq<SetWay>, b: seq<SetWay>, p: SetWay)
    ensures multiset(a + b)[p] == multiset(a)[p] + multiset(b)[p]
  {
  }

  lemma CountOne(x: SetWay, p: SetWay)
    ensures multiset([x])[p] == if p == x then 1 else 0
  {
  }

  lemma RowFirst(s: nat, ways: nat)
    ensures Row(s, ways) == [SetWay(s, ways)] + if ways == 0 then [] else Row(s, ways - 1)
  {
  }

  lemma {:induction false} RowOnce(s: nat, ways: nat, p: SetWay)
    ensures multiset(Row(s, ways))[p] == if p.set_ == s && p.way <= ways then 1 else 0
    decreases ways
  {
    hide Row;
    RowFirst(s, ways);
    CountOne(SetWay(s, ways), p);
    if ways == 0 {
      assert Row(s, ways) == [SetWay(s, ways)];
    } else {
      RowOnce(s, ways - 1, p);
      CountConcat([SetWay(s, ways)], Row(s, ways - 1), p);
    }
  }

  lemma SweepFirst(sets: nat, ways: nat)
    ensures Sweep(sets, ways) == Row(sets, ways) + if sets == 0 then [] else Sweep(sets - 1, ways)
  {
  }

  // Every pair of a set and a way is visited exactly once.
  lemma {:induction false} SweepVisitsOnce(sets: nat, ways: nat, p: SetWay)
    ensures multiset(Sweep(sets, ways))[p] == if p.set_ <= sets && p.way <= ways then 1 else 0
    decreases sets
  {
    hide Row, Sweep;
    SweepFirst(sets, ways);
    RowOnce(sets, ways, p);
    if sets == 0 {
      assert Sweep(sets, ways) == Row(sets, ways);
    } else {
      SweepVisitsOnce(sets - 1, ways, p);
      CountConcat(Row(sets, ways), Sweep(sets - 1, ways), p);
    }
  }

  // The operands tell all pairs apart exactly when both numbers fit their fields.
  lemma OperandsDistinct(sets: nat, ways: nat)
    ensures sets < 0x200 && ways < 4 <==>
            forall p: SetWay, q: SetWay |
              p.set_ <= sets && p.way <= ways && q.set_ <= sets && q.way <= ways && Operand(p) == Operand(q) :: p == q
  {
    if sets >= 0x200 {
      assert Operand(SetWay(0, 0)) == Operand(SetWay(0x200, 0));
    } else if ways >= 4 {
      assert Operand(SetWay(0, 0)) == Operand(SetWay(0, 4));
    } else {
      hide Operand;
      forall p: SetWay, q: SetWay |
        p.set_ <= sets && p.way <= ways && q.set_ <= sets && q.way <= ways && Operand(p) == Operand(q)
        ensures p == q
      {
        FieldsBack(p);
        FieldsBack(q);
      }
    }
  }

  // Both fields can be read back from an operand.
  lemma FieldsBack(p: SetWay)
    requires p.set_ < 0x200 && p.way < 4
    ensures Operand(p) % 0x4000_0000 / 0x20 == p.set_ && Operand(p) / 0x4000_0000 == p.way
  {
    assert Operand(p) == p.set_ * 0x20 + p.way * 0x4000_0000;
    hide Operand;
    Fields(p.set_, p.way);
  }

  lemma Fields(a: nat, b: nat)
    requires a < 0x200 && b < 4
    ensures (a * 0x20 + b * 0x4000_0000) % 0x4000_0000 / 0x20 == a && (a * 0x20 + b * 0x4000_0000) / 0x4000_0000 == b
  {
    if b == 0 {} else if b == 1 {} else if b == 2 {} else {}
  }
}
