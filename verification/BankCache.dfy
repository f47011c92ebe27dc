// The driver remembers the bank it last selected and switches only when an access names
// another one. Meant as an optimisation that nobody can observe: every access should reach
// the register it names. This module says when it does.

module BankCache {
  import opened Bytes
  import opened Registers
  import opened Enc28j60

  // The chip and the cached bank, which is all the access routines read and update.
  datatype Port = Port(chip: Chip, bnBank: Bank)

  datatype Access =
    | Read(reg: Byte)            // one byte of answer
    | ReadMac(reg: Byte)         // two bytes of answer, the first thrown away
    | Write(reg: Byte, value: Byte)
    | Set(reg: Byte, value: Byte)
    | Clear(reg: Byte, value: Byte)
    | SoftReset                  // leaves the chip in bank 0, and the cached bank as it is
  {
    function Bank(): Bank { if SoftReset? then BANK_0 else BankOf(reg) }

    // A soft reset is the same in every bank, like an access to a common register.
    function Address(): (a: nat)
      ensures a < 32
    {
      if SoftReset? then Offset(ECON1) else Offset(reg)
    }

    // Leaves BSEL alone and does not look at it, unless it is a soft reset. All the driver's own
    // accesses are like this.
    predicate Polite()
    {
      SoftReset? || (Offset(reg) == 0x1F ==> (Set? || Clear?) && value % 4 == 0)
    }
  }

  // One access carried out in the given bank.
  function Perform(c: Chip, bank: nat, x: Access): (r: (Chip, Byte))
    requires bank < 4
  {
    var a := x.Address();
    match x
    case Read(_) => if MacMii(bank, a) then (c, 0) else (c.Polled(bank, a), c.Peek(bank, a))
    case ReadMac(_) =>
      var d := if MacMii(bank, a) then c else c.Polled(bank, a);
      (d.Polled(bank, a), d.Peek(bank, a))
    case Write(_, v) => (c.Poke(bank, a, v), 0)
    case Set(_, v) => (c.Masked(bank, a, v, true), 0)
    case Clear(_, v) => (c.Masked(bank, a, v, false), 0)
    case SoftReset => (c.Reset(), 0)
  }

  // A flat register file: the access goes where its name says.
  function Flat(c: Chip, x: Access): (Chip, Byte) { Perform(c, BankBits(x.Bank()), x) }

  function Select(c: Chip, b: Bank): Chip
  {
    c.With(0x1F, c.file[0x1F] - c.file[0x1F] % 4 + BankBits(b))
  }

  // The bank switch as written: going to bank 0 the cache keeps its old value.
  function Switch(p: Port, b: Bank): Port
  {
    if b == p.bnBank then p
    else Port(Select(p.chip, b), if b == BANK_0 then p.bnBank else b)
  }

  function Do(p: Port, x: Access): (r: (Port, Byte))
  {
    var q := Switch(p, x.Bank());
    var (c, v) := Perform(q.chip, q.chip.Bsel(), x);
    (q.(chip := c), v)
  }

  // The variant that updates the cache on every switch, and on a soft reset.
  function DoHoisted(p: Port, x: Access): (r: (Port, Byte))
  {
    var q := Switch(p, x.Bank());
    var (c, v) := Perform(q.chip, q.chip.Bsel(), x);
    (Port(c, x.Bank()), v)
  }

  function Run(p: Port, xs: seq<Access>, hoisted: bool): (Port, seq<Byte>)
    decreases xs
  {
    if xs == [] then (p, [])
    else
      var (q, v) := if hoisted then DoHoisted(p, xs[0]) else Do(p, xs[0]);
      var (r, vs) := Run(q, xs[1..], hoisted);
      (r, [v] + vs)
  }

  function RunFlat(c: Chip, xs: seq<Access>): (Chip, seq<Byte>)
    decreases xs
  {
    if xs == [] then (c, [])
    else
      var (d, v) := Flat(c, xs[0]);
      var (e, vs) := RunFlat(d, xs[1..]);
      (e, [v] + vs)
  }

  ghost predicate AllPolite(xs: seq<Access>) { forall i | 0 <= i < |xs| :: xs[i].Polite() }

  predicate Synced(p: Port) { p.chip.Bsel() == BankBits(p.bnBank) }

  // What the code as written keeps.
  predicate Weak(p: Port) { Synced(p) || p.chip.Bsel() == 0 }

  // The access will be carried out in a bank it does not name.
  predicate Misses(p: Port, x: Access)
  {
    !Common(x.Address()) && Switch(p, x.Bank()).chip.Bsel() != BankBits(x.Bank())
  }

  // Equal up to the selected bank.
  predicate Same(c: Chip, d: Chip)
  {
    && c == d.With(0x1F, c.file[0x1F])
    && c.file[0x1F] / 4 == d.file[0x1F] / 4
  }

  // ----- one access -----

  lemma SelectSelects(c: Chip, b: Bank)
    ensures Select(c, b).Bsel() == BankBits(b) && Same(Select(c, b), c)
  {
    var e, n := c.file[0x1F], BankBits(b);
    assert e == 4 * (e / 4) + e % 4;
    assert (4 * (e / 4) + n) % 4 == n && (4 * (e / 4) + n) / 4 == e / 4;
    assert Select(c, b).file == c.file[0x1F := Select(c, b).file[0x1F]];
  }

  lemma SameTransitive(c: Chip, d: Chip, e: Chip)
    requires Same(c, d) && Same(d, e)
    ensures Same(c, e) && Same(d, c)
  {
    assert c.file == e.file[0x1F := c.file[0x1F]];
    assert d.file == c.file[0x1F := d.file[0x1F]];
  }

  lemma SameReads(c: Chip, d: Chip, bank: nat, a: nat)
    requires Same(c, d) && bank < 4 && a < 31
    ensures Same(c.Polled(bank, a), d.Polled(bank, a)) && c.Peek(bank, a) == d.Peek(bank, a)
    ensures c.Polled(bank, a).Bsel() == c.Bsel()
  {
    var c', d' := c.Polled(bank, a), d.Polled(bank, a);
    assert c'.file == d'.file[0x1F := c'.file[0x1F]];
  }

  lemma SamePokes(c: Chip, d: Chip, bank: nat, a: nat, v: Byte)
    requires Same(c, d) && bank < 4 && a < 31
    ensures Same(c.Poke(bank, a, v), d.Poke(bank, a, v))
    ensures c.Poke(bank, a, v).Bsel() == c.Bsel()
  {
    var c', d' := c.Poke(bank, a, v), d.Poke(bank, a, v);
    assert c'.file == d'.file[0x1F := c'.file[0x1F]];
  }

  // A bit-field command on ECON1 that stays away from BSEL.
  lemma SameMasks(c: Chip, d: Chip, bank: nat, m: Byte, up: bool)
    requires Same(c, d) && bank < 4 && m % 4 == 0
    ensures Same(c.Masked(bank, 31, m, up), d.Masked(bank, 31, m, up))
    ensures c.Masked(bank, 31, m, up).Bsel() == c.Bsel()
  {
    var c', d' := c.Masked(bank, 31, m, up), d.Masked(bank, 31, m, up);
    var x, y := c.file[0x1F], d.file[0x1F];
    KeepLowBits(x, m);
    MaskQuarter(x, m);
    MaskQuarter(y, m);
    assert c'.file == d'.file[0x1F := c'.file[0x1F]];
  }

  lemma MaskQuarter(x: nat, m: nat)
    requires m % 4 == 0
    ensures Or(x, m) / 4 == Or(x / 4, m / 4) && AndNot(x, m) / 4 == AndNot(x / 4, m / 4)
  {
    MaskHalf(x, m);
    MaskHalf(x / 2, m / 2);
    assert x / 2 / 2 == x / 4 && m / 2 / 2 == m / 4;
  }

  lemma MaskHalf(x: nat, m: nat)
    ensures Or(x, m) / 2 == Or(x / 2, m / 2) && AndNot(x, m) / 2 == AndNot(x / 2, m / 2)
  {
  }

  // A polite access carried out in one bank does the same to chips that differ in BSEL only.
  lemma SameAccess(c: Chip, d: Chip, bank: nat, x: Access)
    requires Same(c, d) && bank < 4 && x.Polite()
    ensures Same(Perform(c, bank, x).0, Perform(d, bank, x).0)
    ensures Perform(c, bank, x).1 == Perform(d, bank, x).1
    ensures Perform(c, bank, x).0.Bsel() == if x.SoftReset? then 0 else c.Bsel()
  {
    hide Chip.Peek, Chip.Polled, Chip.Poke, Chip.Reset, Same;
    var a := x.Address();
    if x.SoftReset? {
      SameResets(c, d);
    } else if a == 31 {
      SameMasks(c, d, bank, x.value, x.Set?);
    } else {
      assert c.Raw(bank, a) == d.Raw(bank, a) by { SameRaw(c, d, bank, a); }
      SameReads(c, d, bank, a);
      SameReads(c.Polled(bank, a), d.Polled(bank, a), bank, a);
      if x.Write? { SamePokes(c, d, bank, a, x.value); }
      if x.Set? { SamePokes(c, d, bank, a, SetBits(c.Raw(bank, a), x.value)); }
      if x.Clear? { SamePokes(c, d, bank, a, ClearBits(c.Raw(bank, a), x.value)); }
    }
  }

  lemma SameResets(c: Chip, d: Chip)
    requires Same(c, d)
    ensures Same(c.Reset(), d.Reset()) && c.Reset().Bsel() == 0
  {
    assert c.Reset().file == d.Reset().file;
    assert d.Reset().file == d.Reset().file[0x1F := 0];
  }

  lemma SameRaw(c: Chip, d: Chip, bank: nat, a: nat)
    requires Same(c, d) && bank < 4 && a < 31
    ensures c.Raw(bank, a) == d.Raw(bank, a)
  {
  }

  // A common register is the same one in every bank.
  lemma CommonAccess(c: Chip, x: Access, b1: nat, b2: nat)
    requires Common(x.Address()) && b1 < 4 && b2 < 4
    ensures Perform(c, b1, x) == Perform(c, b2, x)
  {
  }

  lemma BanksDiffer(a: Bank, b: Bank)
    ensures BankBits(a) == BankBits(b) <==> a == b
  {
  }

  // ----- whole runs -----

  // An access that does not miss is the flat access.
  lemma HitIsFlat(p: Port, c: Chip, x: Access)
    requires Same(p.chip, c) && x.Polite() && !Misses(p, x)
    ensures Same(Do(p, x).0.chip, Flat(c, x).0) && Do(p, x).1 == Flat(c, x).1
  {
    hide Perform, Same, Select;
    var q := Switch(p, x.Bank());
    SelectSelects(p.chip, x.Bank());
    assert Same(q.chip, c) by {
      if x.Bank() != p.bnBank { SameTransitive(Select(p.chip, x.Bank()), p.chip, c); }
    }
    SameAccess(q.chip, c, BankBits(x.Bank()), x);
    if Common(x.Address()) { CommonAccess(q.chip, x, q.chip.Bsel(), BankBits(x.Bank())); }
  }

  // With the cache updated on every switch the banked file is indistinguishable from a flat
  // one: same answers, same registers, for every sequence of accesses.
  lemma {:induction false} HoistedRefinesFlat(p: Port, c: Chip, xs: seq<Access>)
    requires Synced(p) && Same(p.chip, c) && AllPolite(xs)
    ensures Run(p, xs, true).1 == RunFlat(c, xs).1
    ensures Same(Run(p, xs, true).0.chip, RunFlat(c, xs).0) && Synced(Run(p, xs, true).0)
    decreases xs
  {
    hide Perform, Same, Select, Chip.Bsel;
    if xs != [] {
      var x := xs[0];
      SelectSelects(p.chip, x.Bank());
      HitIsFlat(p, c, x);
      KeepsBsel(p, x);
      HoistedRefinesFlat(DoHoisted(p, x).0, Flat(c, x).0, xs[1..]);
    }
  }

  lemma KeepsBsel(p: Port, x: Access)
    requires x.Polite()
    ensures Do(p, x).0.chip.Bsel() == if x.SoftReset? then 0 else Switch(p, x.Bank()).chip.Bsel()
  {
    hide Perform, Select, Chip.Bsel;
    var q := Switch(p, x.Bank());
    SameTransitiveRefl(q.chip);
    SameAccess(q.chip, q.chip, q.chip.Bsel(), x);
  }

  lemma SameTransitiveRefl(c: Chip)
    ensures Same(c, c)
  {
    assert c.file == c.file[0x1F := c.file[0x1F]];
  }

  // As written, the weak invariant is kept and bank-0 accesses never miss; another access
  // misses exactly when its bank is cached while the chip has gone back to bank 0.
  lemma WeakInvariant(p: Port, x: Access)
    requires Weak(p) && x.Polite()
    ensures Weak(Do(p, x).0)
    ensures Do(p, x).0.bnBank == if x.Bank() == BANK_0 then p.bnBank else x.Bank()
    ensures Do(p, x).0.chip.Bsel() ==
            if x.Bank() == p.bnBank then p.chip.Bsel() else BankBits(x.Bank())
    ensures Misses(p, x) <==>
            !Common(x.Address()) && x.Bank() != BANK_0 && p.bnBank == x.Bank() && p.chip.Bsel() == 0
  {
    hide Perform, Select, Chip.Bsel;
    SelectSelects(p.chip, x.Bank());
    KeepsBsel(p, x);
    BanksDiffer(x.Bank(), BANK_0);
  }

  // The bank is cached while the chip has gone back to bank 0.
  predicate StaleFor(p: Port, b: Bank) { b != BANK_0 && p.bnBank == b && p.chip.Bsel() == 0 }

  // An access to a bank that is not stale, as one formula.
  lemma Reaches(p: Port, x: Access)
    requires Weak(p) && !StaleFor(p, x.Bank())
    ensures Do(p, x).0.bnBank == if x.Bank() == BANK_0 then p.bnBank else x.Bank()
    ensures var c := Select(p.chip, x.Bank());
            && c.Bsel() == BankBits(x.Bank()) && Same(c, p.chip)
            && Do(p, x).0.chip == Flat(c, x).0 && Do(p, x).1 == Flat(c, x).1
  {
    hide Perform, Same;
    SelectSelects(p.chip, x.Bank());
    BanksDiffer(x.Bank(), p.bnBank);
    if x.Bank() == p.bnBank {
      var e := p.chip.file[0x1F];
      assert e - e % 4 + e % 4 == e;
      assert p.chip.file[0x1F := e] == p.chip.file;
      assert Select(p.chip, x.Bank()) == p.chip;
    }
  }

  // The driver's soft reset: the chip's registers come back, the cached bank stays.
  lemma ResetIsAccess(p: Port)
    ensures Do(p, SoftReset) == (p.(chip := p.chip.Reset()), 0)
  {
    hide Chip.Bsel;
    var c := Switch(p, BANK_0).chip;
    assert c.Reset().file == p.chip.Reset().file;
  }

  // Where the chip already stands in bank 0, a bank-0 access needs no switch.
  lemma AlreadyThere(p: Port, x: Access)
    requires p.chip.Bsel() == 0 && x.Bank() == BANK_0
    ensures Do(p, x) == (p.(chip := Perform(p.chip, 0, x).0), Perform(p.chip, 0, x).1)
    ensures Switch(p, BANK_0) == p
  {
    hide Perform;
    var c := p.chip;
    assert c.file[0x1F := c.file[0x1F]] == c.file;
    assert Select(c, BANK_0) == c;
  }

  // Such an access as one formula.
  lemma AtBankZero(p: Port, x: Access)
    requires p.chip.Bsel() == 0 && x.Bank() == BANK_0
    ensures Perform(p.chip, 0, x) == Flat(Select(p.chip, BANK_0), x)
    ensures forall c: Chip | c.Bsel() == 0 :: Weak(Port(c, p.bnBank))
  {
    hide Perform;
    AlreadyThere(p, x);
    assert p.chip.file[0x1F := p.chip.file[0x1F]] == p.chip.file;
    assert Select(p.chip, BANK_0) == p.chip;
  }

  // A bit-field command on one of the flag registers changes that register only, and the pin.
  lemma FlagEffect(c: Chip, x: Access)
    requires (x.Set? || x.Clear?) && (x.reg == EIE || x.reg == EIR)
    ensures var s := Select(c, BANK_0);
            Flat(s, x).0 == s.Watch(s.With(x.reg, if x.Set? then SetBits(c.file[x.reg], x.value)
                                                  else ClearBits(c.file[x.reg], x.value)))
  {
    hide SetBits, ClearBits, Interrupts;
  }

  // The state before access i of a run of the code as written.
  function Before(p: Port, xs: seq<Access>, i: nat): Port
    requires i <= |xs|
    decreases i
  {
    if i == 0 then p else Do(Before(p, xs, i - 1), xs[i - 1]).0
  }

  // An earlier access j to the bank of access i was followed by an access k to bank 0, or by a
  // soft reset, and no third bank was touched since j.
  ghost predicate Stale(xs: seq<Access>, i: nat, j: int, k: int)
    requires i <= |xs|
  {
    && 0 <= j < k < i
    && xs[j].Bank() != BANK_0 && xs[k].Bank() == BANK_0
    && forall m | j < m < i :: xs[m].Bank() == BANK_0 || xs[m].Bank() == xs[j].Bank()
  }

  // Which bank was last selected by name, and whether a bank-0 access came since.
  ghost predicate History(p: Port, xs: seq<Access>, i: nat)
    requires i <= |xs|
  {
    if p.bnBank == BANK_0 then
      p.chip.Bsel() == 0 && forall m | 0 <= m < i :: xs[m].Bank() == BANK_0
    else
      && Weak(p)
      && (exists j :: LastBank(xs, i, j, p.bnBank))
      && (p.chip.Bsel() == 0 <==> exists j, k :: Stale(xs, i, j, k) && xs[j].Bank() == p.bnBank)
  }

  ghost predicate LastBank(xs: seq<Access>, i: nat, j: int, b: Bank)
    requires i <= |xs|
  {
    0 <= j < i && xs[j].Bank() == b && forall m | j < m < i :: xs[m].Bank() == BANK_0 || xs[m].Bank() == b
  }

  lemma HistoryStep(p: Port, xs: seq<Access>, i: nat)
    requires i < |xs| && xs[i].Polite() && Weak(p) && History(p, xs, i)
    ensures History(Do(p, xs[i]).0, xs, i + 1)
  {
    hide Perform, Select, Chip.Bsel, Do;
    var x, q, n := xs[i], Do(p, xs[i]).0, i + 1;
    WeakInvariant(p, x);
    BanksDiffer(x.Bank(), BANK_0);
    if x.Bank() == BANK_0 {
      if p.bnBank != BANK_0 {
        var j :| LastBank(xs, i, j, p.bnBank);
        assert LastBank(xs, i + 1, j, p.bnBank);
        assert Stale(xs, i + 1, j, i);
      }
    } else if x.Bank() == p.bnBank {
      assert LastBank(xs, i + 1, i, p.bnBank);
      if j, k :| Stale(xs, i, j, k) && xs[j].Bank() == p.bnBank {
        assert Stale(xs, i + 1, j, k);
      }
      if j, k :| Stale(xs, n, j, k) && xs[j].Bank() == p.bnBank {
        assert k != i;
        assert Stale(xs, i, j, k);
      }
    } else {
      assert LastBank(xs, i + 1, i, x.Bank());
      forall j, k | Stale(xs, n, j, k) && xs[j].Bank() == x.Bank() ensures false {
        StaleIsCached(p, xs, i, j, k);
      }
    }
  }

  // The bank of a stale access is the cached one.
  lemma StaleIsCached(p: Port, xs: seq<Access>, i: nat, j: int, k: int)
    requires i < |xs| && History(p, xs, i) && xs[i].Bank() != BANK_0 && Stale(xs, i + 1, j, k)
    requires xs[j].Bank() == xs[i].Bank()
    ensures p.bnBank == xs[i].Bank()
  {
    hide History;
    NoThirdBank(p, xs, i, j);
  }

  // If the cached bank differs from that of access j, some third access came in between.
  lemma NoThirdBank(p: Port, xs: seq<Access>, i: nat, j: nat)
    requires i <= |xs| && j < i && History(p, xs, i)
    requires xs[j].Bank() != BANK_0
    requires forall m | j < m < i :: xs[m].Bank() == BANK_0 || xs[m].Bank() == xs[j].Bank()
    ensures p.bnBank == xs[j].Bank()
  {
    hide Chip.Bsel;
    if p.bnBank != BANK_0 {
      var n :| LastBank(xs, i, n, p.bnBank);
    }
  }

  // Exactly when the code as written fails: access i of a run from a fresh driver misses its
  // register if and only if its bank was selected earlier, left for bank 0 by an access or a soft
  // reset since, and no third bank was touched in between.
  lemma {:induction false} MissesExactlyWhenStale(p: Port, xs: seq<Access>, i: nat)
    requires p.bnBank == BANK_0 && p.chip.Bsel() == 0 && AllPolite(xs) && i < |xs|
    ensures Misses(Before(p, xs, i), xs[i]) <==>
            !Common(xs[i].Address()) &&
            exists j, k :: Stale(xs, i, j, k) && xs[j].Bank() == xs[i].Bank()
  {
    hide Perform, Select, Chip.Bsel, Do, Misses;
    HistoryOf(p, xs, i);
    var s := Before(p, xs, i);
    WeakInvariant(s, xs[i]);
    if j, k :| Stale(xs, i, j, k) && xs[j].Bank() == xs[i].Bank() {
      NoThirdBank(s, xs, i, j);
    }
  }

  lemma {:induction false} HistoryOf(p: Port, xs: seq<Access>, i: nat)
    requires p.bnBank == BANK_0 && p.chip.Bsel() == 0 && AllPolite(xs) && i <= |xs|
    ensures History(Before(p, xs, i), xs, i) && Weak(Before(p, xs, i))
    decreases i
  {
    hide Perform, Select, Chip.Bsel, Do, History;
    if i == 0 {
      assert History(p, xs, 0) && Weak(p) by { FreshHistory(p, xs); }
    } else {
      HistoryOf(p, xs, i - 1);
      HistoryStep(Before(p, xs, i - 1), xs, i - 1);
      WeakInvariant(Before(p, xs, i - 1), xs[i - 1]);
    }
  }

  lemma FreshHistory(p: Port, xs: seq<Access>)
    requires p.bnBank == BANK_0 && p.chip.Bsel() == 0
    ensures History(p, xs, 0) && Weak(p)
  {
  }

  // A run in which nothing misses is a flat run.
  lemma {:induction false} HitsRefineFlat(p: Port, c: Chip, xs: seq<Access>)
    requires Same(p.chip, c) && AllPolite(xs)
    requires forall i | 0 <= i < |xs| :: !Misses(Before(p, xs, i), xs[i])
    ensures Run(p, xs, false).1 == RunFlat(c, xs).1
    ensures Same(Run(p, xs, false).0.chip, RunFlat(c, xs).0)
    decreases xs
  {
    hide Perform, Same, Select, Chip.Bsel, Do, Flat, Misses;
    if xs != [] {
      var x, ys := xs[0], xs[1..];
      assert Before(p, xs, 0) == p;
      HitIsFlat(p, c, x);
      var q := Do(p, x).0;
      forall i | 0 <= i < |ys| ensures !Misses(Before(q, ys, i), ys[i]) {
        BeforeTail(p, xs, i);
      }
      HitsRefineFlat(q, Flat(c, x).0, ys);
    }
  }

  lemma {:induction false} BeforeTail(p: Port, xs: seq<Access>, i: nat)
    requires i + 1 <= |xs|
    ensures Before(Do(p, xs[0]).0, xs[1..], i) == Before(p, xs, i + 1)
    decreases i
  {
    hide Do;
    if i > 0 { BeforeTail(p, xs, i - 1); }
    else { assert Before(p, xs, 0) == p; }
  }

  // A miss is not harmless: the write lands in bank 0 instead.
  lemma MissWritesBankZero(c: Chip, v: Byte)
    requires c.Bsel() == 0
    ensures var xs := [Write(MIREGADR, 1), Write(ERDPTL, 0), Write(MIREGADR, v)];
            var r, f := Run(Port(c, BANK_0), xs, false).0.chip, RunFlat(c, xs).0;
            && r.Reg(MIREGADR) == 1 && r.file[0x14] == v
            && f.Reg(MIREGADR) == v && f.file[0x14] == c.file[0x14]
  {
    var xs := [Write(MIREGADR, 1), Write(ERDPTL, 0), Write(MIREGADR, v)];
    MissedRun(c, v);
    FlatRun(c, v);
    RunOfThree(Port(c, BANK_0), c, xs[0], xs[1], xs[2]);
  }

  lemma MissedRun(c: Chip, v: Byte)
    requires c.Bsel() == 0
    ensures var p := Do(Do(Do(Port(c, BANK_0), Write(MIREGADR, 1)).0, Write(ERDPTL, 0)).0, Write(MIREGADR, v)).0;
            p.chip.file[0x54] == 1 && p.chip.file[0x14] == v
  {
    hide Perform, Select, Chip.Bsel;
    var p1 := Do(Port(c, BANK_0), Write(MIREGADR, 1)).0;
    WriteAt(Port(c, BANK_0), MIREGADR, 1);
    var p2 := Do(p1, Write(ERDPTL, 0)).0;
    WriteAt(p1, ERDPTL, 0);
    WriteAt(p2, MIREGADR, v);
  }

  // Where a write to one of two plain registers goes.
  lemma WriteAt(p: Port, reg: Byte, v: Byte)
    requires reg == MIREGADR || reg == ERDPTL
    ensures var q := Do(p, Write(reg, v)).0;
            && q.bnBank == Switch(p, BankOf(reg)).bnBank
            && q.chip.Bsel() == Switch(p, BankOf(reg)).chip.Bsel()
            && (BankOf(reg) != p.bnBank ==> q.chip.Bsel() == BankBits(BankOf(reg)))
            && (reg == MIREGADR && (q.chip.Bsel() == 2 || q.chip.Bsel() == 0) ==>
                  && q.chip.file[0x54] == (if q.chip.Bsel() == 2 then v else p.chip.file[0x54])
                  && q.chip.file[0x14] == (if q.chip.Bsel() == 2 then p.chip.file[0x14] else v))
            && (reg == ERDPTL && q.chip.Bsel() == 0 ==>
                  q.chip.file[0x54] == p.chip.file[0x54] && q.chip.file[0x14] == p.chip.file[0x14])
  {
    SelectSelects(p.chip, BankOf(reg));
  }

  lemma FlatRun(c: Chip, v: Byte)
    ensures var d := Flat(Flat(Flat(c, Write(MIREGADR, 1)).0, Write(ERDPTL, 0)).0, Write(MIREGADR, v)).0;
            d.file[0x54] == v && d.file[0x14] == c.file[0x14]
  {
  }

  lemma RunOfThree(p: Port, c: Chip, x: Access, y: Access, z: Access)
    ensures Run(p, [x, y, z], false).0 == Do(Do(Do(p, x).0, y).0, z).0
    ensures RunFlat(c, [x, y, z]).0 == Flat(Flat(Flat(c, x).0, y).0, z).0
  {
    hide Do, Flat;
    assert [x, y, z] == [x] + [y, z] && [y, z] == [y] + [z] && [z] == [z] + [];
    RunFirst(p, c, x, [y, z]);
    RunFirst(Do(p, x).0, Flat(c, x).0, y, [z]);
    RunFirst(Do(Do(p, x).0, y).0, Flat(Flat(c, x).0, y).0, z, []);
  }

  lemma RunFirst(p: Port, c: Chip, x: Access, xs: seq<Access>)
    ensures Run(p, [x] + xs, false).0 == Run(Do(p, x).0, xs, false).0
    ensures RunFlat(c, [x] + xs).0 == RunFlat(Flat(c, x).0, xs).0
  {
    hide Do, Flat;
    assert ([x] + xs)[1..] == xs;
  }

  // ----- the driver's own start-up -----

  // A PHY read, with the answers a chip fresh from reset gives, and so many polls of MISTAT.
  function PhyReadOf(reg: Byte, polls: nat): seq<Access>
  {
    [Write(MIREGADR, reg), ReadMac(MICMD), Write(MICMD, 1)] + seq(polls, _ => ReadMac(MISTAT))
    + [ReadMac(MICMD), Write(MICMD, 0), ReadMac(MIRDH), ReadMac(MIRDL)]
  }

  // The buffer layout.
  const LAYOUT: seq<Access> := [
    Write(ERXSTL, 0x00), Write(ERXSTH, 0x00), Write(ERDPTL, 0x00), Write(ERDPTH, 0x00),
    Write(ERXNDL, 0xFF), Write(ERXNDH, 0x17), Write(ERXRDPTL, 0xFF), Write(ERXRDPTH, 0x17),
    Write(ETXSTL, 0x00), Write(ETXSTH, 0x18), Write(ETXNDL, 0xFF), Write(ETXNDH, 0x1F)]

  // Everything after the soft reset up to the first access of the PHY set-up.
  function UpToPhySetUp(clock: nat, polls: nat): seq<Access>
  {
    seq(clock, _ => Read(ESTAT)) + PhyReadOf(PHID2, polls) + PhyReadOf(PHID2, polls) + PhyReadOf(PHID1, polls)
    + PhyReadOf(PHID2, polls) + LAYOUT + [Write(MIREGADR, PHCON1)]
  }

  lemma PhyReadPolite(reg: Byte, polls: nat)
    ensures AllPolite(PhyReadOf(reg, polls)) && |PhyReadOf(reg, polls)| >= 7
    ensures PhyReadOf(reg, polls)[|PhyReadOf(reg, polls)| - 1] == ReadMac(MIRDL)
  {
  }

  lemma PoliteAppend(a: seq<Access>, b: seq<Access>)
    requires AllPolite(a) && AllPolite(b)
    ensures AllPolite(a + b)
  {
  }

  lemma StartUpPolite(clock: nat, polls: nat)
    ensures AllPolite(UpToPhySetUp(clock, polls)) && |UpToPhySetUp(clock, polls)| >= 14
    ensures var xs := UpToPhySetUp(clock, polls);
            xs[|xs| - 14..] == [ReadMac(MIRDL)] + LAYOUT + [Write(MIREGADR, PHCON1)]
  {
    hide AllPolite, PhyReadOf;
    var a, b, c, d := seq(clock, _ => Read(ESTAT)), PhyReadOf(PHID2, polls), PhyReadOf(PHID1, polls), LAYOUT;
    PhyReadPolite(PHID2, polls);
    PhyReadPolite(PHID1, polls);
    AllReads(clock);
    LayoutPolite();
    PoliteAppend(a, b);
    PoliteAppend(a + b, b);
    PoliteAppend(a + b + b, c);
    PoliteAppend(a + b + b + c, b);
    PoliteAppend(a + b + b + c + b, d);
    PoliteAppend(a + b + b + c + b + d, [Write(MIREGADR, PHCON1)]);
  }

  lemma AllReads(clock: nat)
    ensures AllPolite(seq(clock, _ => Read(ESTAT)))
  {
  }

  lemma LayoutPolite()
    ensures AllPolite(LAYOUT) && |LAYOUT| == 12 && AllPolite([Write(MIREGADR, PHCON1)])
    ensures forall i | 0 <= i < 12 :: LAYOUT[i].Bank() == BANK_0
  {
  }

  // The first access of the PHY set-up goes astray, whatever the chip was before its reset and
  // however long it takes over its clock and its PHY: MIREGADR is not written.
  lemma StartUpMisses(c: Chip, clock: nat, polls: nat)
    ensures var xs := UpToPhySetUp(clock, polls);
            && |xs| > 0
            && var p, x := Before(Port(c.Reset(), BANK_0), xs, |xs| - 1), xs[|xs| - 1];
            && x == Write(MIREGADR, PHCON1) && Misses(p, x)
            && Do(p, x).0.chip.Reg(MIREGADR) == p.chip.Reg(MIREGADR) && Do(p, x).0.chip.file[0x14] == PHCON1
  {
    hide Perform, Select, AllPolite, UpToPhySetUp, Before, Misses;
    var xs := UpToPhySetUp(clock, polls);
    StartUpPolite(clock, polls);
    LayoutPolite();
    var i, q := |xs| - 1, Port(c.Reset(), BANK_0);
    var tail := xs[|xs| - 14..];
    assert tail[0] == xs[i - 13] && tail[13] == xs[i];
    forall m | i - 13 < m < i ensures xs[m].Bank() == BANK_0 {
      assert xs[m] == tail[m - (i - 13)] == LAYOUT[m - (i - 13) - 1];
    }
    assert Stale(xs, i, i - 13, i - 1);
    assert q.chip.Bsel() == 0;
    MissesExactlyWhenStale(q, xs, i);
    HistoryOf(q, xs, i);
    MissedAddress(Before(q, xs, i), PHCON1);
  }

  lemma MissedAddress(p: Port, v: Byte)
    requires Weak(p) && Misses(p, Write(MIREGADR, v))
    ensures var d := Do(p, Write(MIREGADR, v)).0.chip;
            d.Reg(MIREGADR) == p.chip.Reg(MIREGADR) && d.file[0x14] == v
  {
    WeakInvariant(p, Write(MIREGADR, v));
    WriteAt(p, MIREGADR, v);
  }
}
