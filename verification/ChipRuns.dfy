// Changes of the chip as runs of the machine in Dispatch: what network and driver do to a chip
// between two points of the program is, on what the chip shows, a run of that machine between
// the same two points.

module ChipRuns {
  import opened Bytes
  import opened Registers
  import opened Enc28j60
  import opened BankCache
  import opened Driver
  import opened FlagView
  import D = Dispatch

  // m steps of the program, and between them steps of the chip and frames accepted for sending; a
  // PHIR read gets through exactly if phy is set.
  ghost predicate OwnSteps(xs: seq<D.Step>, m: nat, phy: bool)
  {
    Mains(xs) == m && forall i | 0 <= i < |xs| :: !xs[i].Isr? && (xs[i].Main? ==> xs[i].phy == phy)
  }

  function Mains(xs: seq<D.Step>): nat
    decreases xs
  {
    if xs == [] then 0 else D.One(xs[0].Main?) + Mains(xs[1..])
  }

  // How often the INT pin falls in a run.
  ghost function Edges(s: D.State, xs: seq<D.Step>): nat
    requires D.Legal(s, xs)
    decreases xs
  {
    if xs == [] then 0
    else D.One(!s.Low() && D.Effect(s, xs[0]).Low()) + Edges(D.Next(s, xs[0]), xs[1..])
  }

  // The steps of the chip in a run.
  function ChipSteps(xs: seq<D.Step>): seq<D.Step>
    decreases xs
  {
    if xs == [] then []
    else (if xs[0].Main? || xs[0].Transmit? || xs[0].Isr? then [] else [xs[0]]) + ChipSteps(xs[1..])
  }

  // Steps of the chip and the events of the network side they come from, one for one and in the
  // same order: an abandoned reception shows nowhere, a frame that finds no room is an error, and
  // the end of a transmission needs one under way.
  predicate Answers(steps: seq<D.Step>, es: seq<Event>)
    decreases es
  {
    if es == [] then steps == []
    else
      || ((es[0].Scribble? || es[0].TxDone?) && Answers(steps, es[1..]))
      || (steps != [] && StepFor(es[0], steps[0]) && Answers(steps[1..], es[1..]))
  }

  predicate StepFor(e: Event, x: D.Step)
  {
    match e
    case Arrive(_) => x.Arrive? || x.RxError?
    case Scribble(_) => false
    case Overrun => x.RxError?
    case TxDone(failed) => x == D.TxEnd(failed)
    case LinkChange => x.Link?
  }

  // From any machine state at p that the first chip shows there is a run to one at q that the
  // second chip shows, with m steps of the program, in which the chip does what the network side
  // did in between and nothing else, and the INT pin falls as often as it did.
  ghost predicate Leads(c: Chip, p: D.Pc, d: Chip, q: D.Pc, m: nat, phy: bool)
  {
    c.log <= d.log && forall s: D.State | D.Static(s) && Shows(c, s) && s.pc == p :: LeadsFrom(s, c, d, q, m, phy)
  }

  ghost predicate LeadsFrom(s: D.State, c: Chip, d: Chip, q: D.Pc, m: nat, phy: bool)
  {
    exists xs :: RunTo(s, xs, c, d, q, m, phy)
  }

  ghost predicate RunTo(s: D.State, xs: seq<D.Step>, c: Chip, d: Chip, q: D.Pc, m: nat, phy: bool)
  {
    && D.Legal(s, xs) && OwnSteps(xs, m, phy) && Shows(d, D.After(s, xs)) && D.After(s, xs).pc == q
    && c.log <= d.log && Answers(ChipSteps(xs), d.log[|c.log|..]) && d.falls == c.falls + Edges(s, xs)
  }

  // A pending link change stays pending.
  predicate LinkStays(c: Chip, d: Chip) { Bit(c.file[EIR], D.LINKIF) ==> Bit(d.file[EIR], D.LINKIF) }

  // Wherever the program stands it stays there: only the chip acts.
  ghost predicate Evolves(c: Chip, d: Chip) { LinkStays(c, d) && forall p, phy :: Leads(c, p, d, p, 0, phy) }

  // ----- runs after one another -----

  lemma {:induction false} RunThenRun(s: D.State, xs: seq<D.Step>, ys: seq<D.Step>)
    requires D.Legal(s, xs) && D.Legal(D.After(s, xs), ys)
    ensures D.Legal(s, xs + ys) && D.After(s, xs + ys) == D.After(D.After(s, xs), ys)
    ensures Edges(s, xs + ys) == Edges(s, xs) + Edges(D.After(s, xs), ys)
    decreases xs
  {
    hide D.Next, D.Enabled, D.Effect, D.State.Low;
    if xs == [] {
      assert [] + ys == ys;
    } else {
      assert (xs + ys)[1..] == xs[1..] + ys;
      RunThenRun(D.Next(s, xs[0]), xs[1..], ys);
    }
  }

  lemma {:induction false} MainsAdd(xs: seq<D.Step>, ys: seq<D.Step>)
    ensures Mains(xs + ys) == Mains(xs) + Mains(ys)
    decreases xs
  {
    if xs == [] {
      assert [] + ys == ys;
    } else {
      assert (xs + ys)[1..] == xs[1..] + ys;
      MainsAdd(xs[1..], ys);
    }
  }

  lemma {:induction false} ChipStepsAdd(xs: seq<D.Step>, ys: seq<D.Step>)
    ensures ChipSteps(xs + ys) == ChipSteps(xs) + ChipSteps(ys)
    decreases xs
  {
    if xs == [] {
      assert [] + ys == ys;
    } else {
      assert (xs + ys)[1..] == xs[1..] + ys;
      ChipStepsAdd(xs[1..], ys);
    }
  }

  lemma {:induction false} AnswersAdd(a: seq<D.Step>, b: seq<D.Step>, es: seq<Event>, fs: seq<Event>)
    requires Answers(a, es) && Answers(b, fs)
    ensures Answers(a + b, es + fs)
    decreases es
  {
    if es == [] {
      assert a + b == b && es + fs == fs;
    } else {
      assert (es + fs)[1..] == es[1..] + fs;
      if (es[0].Scribble? || es[0].TxDone?) && Answers(a, es[1..]) {
        AnswersAdd(a, b, es[1..], fs);
      } else {
        AnswersAdd(a[1..], b, es[1..], fs);
        assert (a + b)[1..] == a[1..] + b;
      }
    }
  }

  lemma LeadsTwice(a: Chip, p: D.Pc, b: Chip, q: D.Pc, c: Chip, r: D.Pc, m: nat, n: nat, phy: bool)
    requires Leads(a, p, b, q, m, phy) && Leads(b, q, c, r, n, phy)
    ensures Leads(a, p, c, r, m + n, phy)
  {
    hide Shows, D.Static, RunTo;
    forall s: D.State | D.Static(s) && Shows(a, s) && s.pc == p ensures LeadsFrom(s, a, c, r, m + n, phy) {
      assert LeadsFrom(s, a, b, q, m, phy);
      var xs :| RunTo(s, xs, a, b, q, m, phy);
      RunEnd(s, xs, a, b, q, m, phy);
      var t := D.After(s, xs);
      assert LeadsFrom(t, b, c, r, n, phy);
      var ys :| RunTo(t, ys, b, c, r, n, phy);
      RunsJoin(s, xs, a, b, q, m, ys, c, r, n, phy);
    }
  }

  lemma RunEnd(s: D.State, xs: seq<D.Step>, c: Chip, d: Chip, q: D.Pc, m: nat, phy: bool)
    requires D.Static(s) && RunTo(s, xs, c, d, q, m, phy)
    ensures D.Legal(s, xs) && D.Static(D.After(s, xs)) && Shows(d, D.After(s, xs)) && D.After(s, xs).pc == q
  {
    hide Shows, D.Static, D.Legal, D.After;
    D.StaticAlways(s, xs);
  }

  lemma RunsJoin(s: D.State, xs: seq<D.Step>, a: Chip, b: Chip, q: D.Pc, m: nat,
                 ys: seq<D.Step>, c: Chip, r: D.Pc, n: nat, phy: bool)
    requires RunTo(s, xs, a, b, q, m, phy) && RunTo(D.After(s, xs), ys, b, c, r, n, phy)
    ensures RunTo(s, xs + ys, a, c, r, m + n, phy)
  {
    hide Shows, D.Legal, D.After, Mains, Answers, ChipSteps, Edges;
    LogSplit(a.log, b.log, c.log);
    RunThenRun(s, xs, ys);
    MainsAdd(xs, ys);
    ChipStepsAdd(xs, ys);
    AnswersAdd(ChipSteps(xs), ChipSteps(ys), b.log[|a.log|..], c.log[|b.log|..]);
  }

  lemma LogSplit(a: seq<Event>, b: seq<Event>, c: seq<Event>)
    requires a <= b && b <= c
    ensures a <= c && c[|a|..] == b[|a|..] + c[|b|..]
  {
  }

  lemma EvolvesTwice(a: Chip, b: Chip, c: Chip)
    requires Evolves(a, b) && Evolves(b, c)
    ensures Evolves(a, c)
  {
    hide Leads;
    forall p, phy ensures Leads(a, p, c, p, 0, phy) { LeadsTwice(a, p, b, p, c, p, 0, 0, phy); }
  }

  lemma EvolvesThenLeads(a: Chip, b: Chip, p: D.Pc, c: Chip, q: D.Pc, m: nat, phy: bool)
    requires Evolves(a, b) && Leads(b, p, c, q, m, phy)
    ensures Leads(a, p, c, q, m, phy)
  {
    hide Leads;
    assert Leads(a, p, b, p, 0, phy);
    LeadsTwice(a, p, b, p, c, q, 0, m, phy);
  }

  // ----- where they come from -----

  // A change that shows nowhere.
  lemma Unshown(c: Chip, d: Chip)
    requires d.file[EIE] == c.file[EIE] && d.file[EIR] == c.file[EIR]
    requires d.Packets() == c.Packets() && d.Sending() == c.Sending() && d.log == c.log && d.falls == c.falls
    ensures Evolves(c, d)
  {
    forall p, phy ensures Leads(c, p, d, p, 0, phy) {
      assert d.log[|c.log|..] == [];
      forall s: D.State | D.Static(s) && Shows(c, s) && s.pc == p ensures LeadsFrom(s, c, d, p, 0, phy) {
        StandStill(s, c, d, phy);
      }
    }
  }

  lemma StandStill(s: D.State, c: Chip, d: Chip, phy: bool)
    requires Shows(d, s) && c.log <= d.log && Answers([], d.log[|c.log|..]) && d.falls == c.falls
    ensures LeadsFrom(s, c, d, s.pc, 0, phy)
  {
    assert D.Legal(s, []) && Edges(s, []) == 0;
    assert RunTo(s, [], c, d, s.pc, 0, phy);
  }

  // A step of the chip or of the driver, with the edge of the pin if there is one.
  predicate Pinned(c: Chip, d: Chip) { d.falls == c.falls + D.One(!c.IntLow() && d.IntLow()) }

  // The pin is the machine's.
  lemma PinShows(c: Chip, s: D.State)
    requires Shows(c, s)
    ensures s.Low() <==> c.IntLow()
  {
    hide Bit;
    var eie, eir := c.file[0x1B], c.file[0x1C];
    forall b | 0 <= b < 7
      ensures b in s.Pending() * s.eie <==> Bit(eie, b) && if b == 6 then c.Packets() > 0 else Bit(eir, b)
    {
    }
    if s.Asserted() {
      var b :| b in s.Pending() * s.eie;
      assert 0 <= b < 7;
    }
  }

  // One step of the machine.
  lemma OneStep(s: D.State, x: D.Step, c: Chip, d: Chip, phy: bool)
    requires D.Enabled(s, x) && !x.Isr? && (x.Main? ==> x.phy == phy) && Shows(c, s) && Shows(d, D.Effect(s, x))
    requires c.log <= d.log && Answers(ChipSteps([x]), d.log[|c.log|..]) && Pinned(c, d)
    ensures LeadsFrom(s, c, d, D.Effect(s, x).pc, D.One(x.Main?), phy)
  {
    hide D.Enabled, D.Effect, D.State.Low, Answers, ChipSteps, Chip.IntLow, Shows;
    var xs := [x];
    OneLegal(s, x);
    PinShows(c, s);
    PinShows(d, D.Effect(s, x));
    SameShown(d, D.Effect(s, x), D.Next(s, x));
    assert RunTo(s, xs, c, d, D.Effect(s, x).pc, D.One(x.Main?), phy);
  }

  // One step that is not the chip's.
  lemma OwnStep(s: D.State, x: D.Step, c: Chip, d: Chip, phy: bool)
    requires D.Enabled(s, x) && (x.Transmit? || (x.Main? && x.phy == phy)) && Shows(c, s) && Shows(d, D.Effect(s, x))
    requires d.log == c.log && Pinned(c, d)
    ensures LeadsFrom(s, c, d, D.Effect(s, x).pc, D.One(x.Main?), phy)
  {
    hide Pinned, Shows, D.Enabled, D.Effect;
    assert [x][1..] == [] && d.log[|c.log|..] == [];
    assert ChipSteps([x][1..]) == [];
    assert ChipSteps([x]) == [] && Answers([], []);
    OneStep(s, x, c, d, phy);
  }

  lemma OneLegal(s: D.State, x: D.Step)
    requires D.Enabled(s, x)
    ensures D.Legal(s, [x]) && D.After(s, [x]) == D.Next(s, x) && Mains([x]) == D.One(x.Main?)
    ensures Edges(s, [x]) == D.One(!s.Low() && D.Effect(s, x).Low())
    ensures D.Next(s, x).pc == D.Effect(s, x).pc
  {
    hide D.State.Low, D.Effect, D.Enabled;
    var t := D.Next(s, x);
    assert [x][1..] == [] && Mains([x][1..]) == 0;
    assert D.Legal(t, []) && D.After(t, []) == t && Edges(t, []) == 0;
  }

  // An event of the network side.
  lemma PlayEvolves(c: Chip, e: Event)
    ensures Evolves(c, c.Play(e))
  {
    hide Shows, Chip.Undergo, D.Enabled, LinkStays, Chip.Watch;
    PlayLink(c, e);
    PlayLog(c, e);
    var d := c.Play(e);
    forall p, phy ensures Leads(c, p, d, p, 0, phy) {
      forall s: D.State | D.Static(s) && Shows(c, s) && s.pc == p ensures LeadsFrom(s, c, d, p, 0, phy) {
        PlayRuns(c, s, e, phy);
      }
    }
  }

  lemma PlayLog(c: Chip, e: Event)
    ensures var d := c.Play(e); d.log == c.log + [e] && d.log[|c.log|..] == [e] && Pinned(c, d)
    ensures c.log <= c.Play(e).log
  {
    hide Chip.Undergo, Interrupts;
    SameLog(c, e);
  }

  lemma PlayRuns(c: Chip, s: D.State, e: Event, phy: bool)
    requires Shows(c, s)
    ensures LeadsFrom(s, c, c.Play(e), s.pc, 0, phy)
  {
    hide Shows, Chip.Play, D.Enabled, D.Legal, Pinned, StepsOf;
    var d, xs := c.Play(e), StepsOf(c, e);
    PlayIsStep(c, s, e);
    PlayLog(c, e);
    assert [e][1..] == [];
    assert Answers([], [e][1..]);
    if xs == [] {
      Unseen(c, e);
      SamePinned(c, d, s);
      StandStill(s, c, d, phy);
    } else {
      ChipStep(c, s, e);
      assert xs == [xs[0]] && [xs[0]][1..] == [];
      assert ChipSteps([xs[0]][1..]) == [];
      assert ChipSteps([xs[0]]) == [xs[0]];
      assert Answers([xs[0]], [e]);
      OneStep(s, xs[0], c, d, phy);
    }
  }

  lemma SamePinned(c: Chip, d: Chip, s: D.State)
    requires Shows(c, s) && Shows(d, s) && Pinned(c, d)
    ensures d.falls == c.falls
  {
    hide Shows, Chip.IntLow;
    PinShows(c, s);
    PinShows(d, s);
  }

  lemma Unseen(c: Chip, e: Event)
    requires StepsOf(c, e) == []
    ensures e.Scribble? || e.TxDone?
  {
  }

  // Events raise flags and clear none.
  lemma PlayLink(c: Chip, e: Event)
    ensures LinkStays(c, c.Play(e))
  {
    hide Bit, Chip.Play;
    var s := D.State(Flags(c.file[EIE]), Bit(c.file[EIE], 7), Flags(c.file[EIR]) - {D.PKTIF}, c.Packets(), c.Sending(),
                     false, 0, false, 0, 0, 0, D.Head);
    assert Shows(c, s);
    PlayIsStep(c, s, e);
    assert Bit(c.file[EIR], D.LINKIF) ==> D.LINKIF in s.eir;
    var xs := StepsOf(c, e);
    assert xs != [] ==> s.eir <= D.Effect(s, xs[0]).eir;
  }

  lemma ChipStep(c: Chip, s: D.State, e: Event)
    requires StepsOf(c, e) != [] && D.Enabled(s, StepsOf(c, e)[0])
    ensures var x := StepsOf(c, e)[0];
            && !x.Isr? && !x.Transmit? && !x.Main? && !x.Wake? && !x.Dma? && D.Effect(s, x).pc == s.pc
            && StepFor(e, x) && |StepsOf(c, e)| == 1
  {
  }

  // The driver's accesses are no events, and those of the program's steps watch the pin.
  lemma AccessLog(c: Chip, x: Access)
    ensures Flat(BankCache.Select(c, BANK_0), x).0.log == c.log
  {
    hide SetBits, ClearBits, Bit, Interrupts;
  }

  lemma CarriedLog(c: Chip, p: D.Pc)
    ensures Carried(c, AccessAt(p)).log == c.log && Pinned(c, Carried(c, AccessAt(p)))
  {
    hide Flat, MaskOf, Pinned;
    var xs := AccessAt(p);
    if xs == [] {
      NoEdge(c);
    } else {
      AccessLog(c, xs[0]);
      AccessPins(c, xs[0]);
    }
  }

  lemma NoEdge(c: Chip)
    ensures Pinned(c, c)
  {
  }

  lemma AccessPins(c: Chip, x: Access)
    requires || ((x.Set? || x.Clear?) && (x.reg == EIE || x.reg == EIR)) || x == Read(EIR)
             || x == Set(ECON2, 0x40) || x == Set(ECON1, 0x08)
    ensures Pinned(c, Flat(BankCache.Select(c, BANK_0), x).0)
  {
    hide SetBits, ClearBits, Bit, Interrupts;
    if (x.Set? || x.Clear?) && (x.reg == EIE || x.reg == EIR) {
      FlagEffect(c, x);
      hide Flat;
    } else if x == Set(ECON2, 0x40) {
      FewerPackets(c.file[0x1B], c.file[0x1C], c.Packets());
    }
  }

  lemma FewerPackets(eie: Byte, eir: Byte, count: Byte)
    ensures count > 0 && Interrupts(eie, eir, count - 1) ==> Interrupts(eie, eir, count)
  {
    hide Bit;
  }

  lemma PhyReadLog(p: Port, addr: Byte)
    requires Weak(p) && addr < 32 && p.chip.mii.Idle?
    ensures var d := PhyRead(p, addr).0.chip; d.log == p.chip.log && Pinned(p.chip, d)
  {
    hide PhyRead, Bit, ClearBits, Interrupts;
    PhyReadEffect(p, addr);
    LinkCleared(p.chip.file[0x1B], p.chip.file[0x1C], p.chip.Packets());
  }

  lemma LinkCleared(eie: Byte, eir: Byte, count: Byte)
    ensures Interrupts(eie, ClearBits(eir, 0x10), count) ==> Interrupts(eie, eir, count)
  {
    hide Bit, ClearBits;
    forall b: nat ensures Bit(ClearBits(eir, 0x10), b) ==> Bit(eir, b) { ClearHasBit(eir, 0x10, b); }
  }

  // The point of the program after p.
  function PcAfter(p: D.Pc): D.Pc
  {
    match p
    case Scan(v, k) => if k >= 8 then D.Head else if k in v then D.Masked(v, k) else D.Scan(v, k + 1)
    case Masked(v, k) => D.AfterHandler(v, k)
    case Released(v) => D.Restore(v, D.TXIF)
    case LinkRead(v) => D.Restore(v, D.LINKIF)
    case Fetched(v) => D.Input(v, false)
    case Input(v, _) => D.Restore(v, D.PKTIF)
    case Restore(v, k) => D.Scan(v, k + 1)
    case Tx(stage, back) =>
      if stage < 4 then D.Tx(stage + 1, back)
      else if back.ToHead? then D.Head else D.Input(back.sample, true)
    case _ => p
  }

  // The program's step at p, with the access that goes with it.
  lemma StepLeads(c: Chip, p: D.Pc, phy: bool)
    requires D.WellPlaced(p) && !p.Head? && !D.Entering(p) && (p.Masked? ==> p.k != D.LINKIF)
    ensures Leads(c, p, Carried(c, AccessAt(p)), PcAfter(p), 1, phy)
  {
    hide Shows, Carried, AccessAt, D.WellPlaced, D.AfterHandler, Pinned;
    var d := Carried(c, AccessAt(p));
    CarriedLog(c, p);
    forall s: D.State | D.Static(s) && Shows(c, s) && s.pc == p ensures LeadsFrom(s, c, d, PcAfter(p), 1, phy) {
      StepIsAccess(c, s);
      StepPc(s, phy);
      OwnStep(s, D.Main(phy), c, d, phy);
    }
  }

  lemma StepPc(s: D.State, phy: bool)
    requires !s.pc.Head? && !D.Entering(s.pc) && D.WellPlaced(s.pc) && (s.pc.Masked? ==> s.pc.k != D.LINKIF)
    ensures D.Act(s, false).pc == PcAfter(s.pc)
    ensures D.Enabled(s, D.Main(phy)) && D.Effect(s, D.Main(phy)) == D.Act(s, false)
  {
    hide D.From, D.Sampled, D.State.Low, D.Handle, D.Send, D.WellPlaced;
    HandlePc(s, s.pc, phy);
  }

  lemma HandlePc(s: D.State, pc: D.Pc, phy: bool)
    ensures pc.Masked? ==> D.Handle(s, pc.sample, pc.k, false).pc == D.AfterHandler(pc.sample, pc.k)
    ensures pc.Masked? && pc.k != D.LINKIF ==>
              D.Handle(s, pc.sample, pc.k, phy) == D.Handle(s, pc.sample, pc.k, false)
    ensures pc.Tx? ==> D.Send(s, pc.stage, pc.back).pc == PcAfter(pc)
  {
  }

  // The change is the program's step with this access, wherever it makes it.
  ghost predicate Takes(c: Chip, x: Access, d: Chip)
  {
    forall p, phy | D.WellPlaced(p) && AccessAt(p) == [x] :: Leads(c, p, d, PcAfter(p), 1, phy)
  }

  lemma AccessTakes(c: Chip, x: Access)
    ensures Takes(c, x, Flat(BankCache.Select(c, BANK_0), x).0)
  {
    hide Leads, D.WellPlaced, Flat;
    forall p, phy | D.WellPlaced(p) && AccessAt(p) == [x]
      ensures Leads(c, p, Flat(BankCache.Select(c, BANK_0), x).0, PcAfter(p), 1, phy)
    {
      AccessPoint(p);
      StepLeads(c, p, phy);
    }
  }

  lemma TakenAt(c: Chip, x: Access, d: Chip, p: D.Pc, phy: bool)
    requires Takes(c, x, d) && D.WellPlaced(p) && AccessAt(p) == [x]
    ensures Leads(c, p, d, PcAfter(p), 1, phy)
  {
  }

  lemma AccessPoint(p: D.Pc)
    requires AccessAt(p) != []
    ensures !p.Head? && !D.Entering(p) && (p.Masked? ==> p.k != D.LINKIF)
  {
  }

  lemma TakesAfter(a: Chip, b: Chip, x: Access, c: Chip)
    requires Evolves(a, b) && Takes(b, x, c)
    ensures Takes(a, x, c)
  {
    hide Evolves, Leads, AccessAt, D.WellPlaced, PcAfter;
    forall p, phy | D.WellPlaced(p) && AccessAt(p) == [x] ensures Leads(a, p, c, PcAfter(p), 1, phy) {
      EvolvesThenLeads(a, b, p, c, PcAfter(p), 1, phy);
    }
  }

  // The handler of a packet: it is fetched while the chip goes on, and then counted down.
  lemma PacketLeads(a: Chip, b: Chip, c: Chip, v: D.Flags, phy: bool)
    requires Evolves(a, b) && Takes(b, Set(ECON2, 0x40), c) && D.WellPlaced(D.Fetched(v))
    ensures Leads(a, D.Masked(v, D.PKTIF), c, D.Input(v, false), 2, phy)
  {
    hide Evolves, Leads;
    var p, q, r := D.Masked(v, D.PKTIF), D.Fetched(v), D.Input(v, false);
    StepLeads(a, p, phy);
    assert Leads(a, p, a, q, 1, phy);
    assert AccessAt(q) == [Set(ECON2, 0x40)] && PcAfter(q) == r;
    EvolvesThenLeads(a, b, q, c, r, 1, phy);
    LeadsTwice(a, p, a, q, c, r, 1, 1, phy);
  }

  // The four accesses that start a transmission.
  lemma SendLeads(b: Chip, c: Chip, d: Chip, e: Chip, f: Chip, back: D.Back, phy: bool)
    requires D.WellPlaced(D.Tx(0, back))
    requires Takes(b, Clear(EIR, 0x08), c) && Takes(c, Set(EIE, 0x08), d)
    requires Takes(d, Set(EIE, 0x80), e) && Takes(e, Set(ECON1, 0x08), f)
    ensures Leads(b, D.Tx(0, back), f, D.Tx(4, back), 4, phy)
  {
    hide Leads;
    StagesPlaced(back);
    assert Leads(b, D.Tx(0, back), c, D.Tx(1, back), 1, phy);
    LeadsTwice(b, D.Tx(0, back), c, D.Tx(1, back), d, D.Tx(2, back), 1, 1, phy);
    LeadsTwice(b, D.Tx(0, back), d, D.Tx(2, back), e, D.Tx(3, back), 2, 1, phy);
    LeadsTwice(b, D.Tx(0, back), e, D.Tx(3, back), f, D.Tx(4, back), 3, 1, phy);
  }

  lemma StagesPlaced(back: D.Back)
    requires D.WellPlaced(D.Tx(0, back))
    ensures forall i | 0 <= i <= 4 :: D.WellPlaced(D.Tx(i, back))
    ensures forall i | 0 <= i < 4 :: PcAfter(D.Tx(i, back)) == D.Tx(i + 1, back)
    ensures AccessAt(D.Tx(0, back)) == [Clear(EIR, 0x08)] && AccessAt(D.Tx(1, back)) == [Set(EIE, 0x08)]
    ensures AccessAt(D.Tx(2, back)) == [Set(EIE, 0x80)] && AccessAt(D.Tx(3, back)) == [Set(ECON1, 0x08)]
  {
  }

  // A transmission as a whole, from the acceptance of the frame to the busy flag.
  predicate MaySend(p: D.Pc) { D.WellPlaced(p) && (p.Head? || p.Input?) }

  function AfterSend(p: D.Pc): D.Pc
    requires MaySend(p)
  {
    if p.Head? then D.Head else D.Input(p.sample, true)
  }

  lemma WholeSend(a: Chip, f: Chip, p: D.Pc, phy: bool)
    requires MaySend(p) && !a.Sending() && !a.TxFlag()
    requires forall back | D.WellPlaced(D.Tx(0, back)) :: Leads(a, D.Tx(0, back), f, D.Tx(4, back), 4, phy)
    ensures Leads(a, p, f, AfterSend(p), 5, phy)
  {
    hide Leads;
    var back := if p.Head? then D.ToHead else D.ToInput(p.sample);
    SendAccepted(a, p, back, phy);
    StagesPlaced(back);
    LeadsTwice(a, p, a, D.Tx(0, back), f, D.Tx(4, back), 0, 4, phy);
    StepLeads(f, D.Tx(4, back), phy);
    assert Leads(f, D.Tx(4, back), f, AfterSend(p), 1, phy);
    LeadsTwice(a, p, f, D.Tx(4, back), f, AfterSend(p), 4, 1, phy);
  }

  lemma SendAccepted(a: Chip, p: D.Pc, back: D.Back, phy: bool)
    requires MaySend(p) && !a.Sending() && !a.TxFlag() && back == if p.Head? then D.ToHead else D.ToInput(p.sample)
    ensures Leads(a, p, a, D.Tx(0, back), 0, phy)
  {
    hide Bit, Pinned;
    NoEdge(a);
    forall s: D.State | D.Static(s) && Shows(a, s) && s.pc == p ensures LeadsFrom(s, a, a, D.Tx(0, back), 0, phy) {
      IdleIsFree(a, s);
      OwnStep(s, D.Transmit, a, a, phy);
    }
  }

  lemma IdleIsFree(a: Chip, s: D.State)
    requires D.Static(s) && Shows(a, s) && !a.Sending() && !a.TxFlag() && !s.pc.Tx? && !s.pc.Released?
    ensures !s.busy
  {
    hide Bit, D.Enables, D.Conserved, D.WellPlaced;
    assert D.TXIF !in Flags(a.file[EIR]);
  }

  // The handler of a completed transmission.
  lemma CompletionLeads(a: Chip, b: Chip, v: D.Flags, phy: bool)
    requires Takes(a, Clear(EIR, 0x08), b) && D.WellPlaced(D.Masked(v, D.TXIF))
    ensures Leads(a, D.Masked(v, D.TXIF), b, D.Restore(v, D.TXIF), 2, phy)
  {
    hide Leads;
    var p, q, r := D.Masked(v, D.TXIF), D.Released(v), D.Restore(v, D.TXIF);
    assert AccessAt(p) == [Clear(EIR, 0x08)] && PcAfter(p) == q;
    StepLeads(b, q, phy);
    assert Leads(b, q, b, r, 1, phy);
    LeadsTwice(a, p, b, q, b, r, 1, 1, phy);
  }

  // The handler of a link change.
  lemma LinkLeads(a: Chip, b: Port, c: Chip, v: D.Flags)
    requires Evolves(a, b.chip) && Weak(b) && b.chip.mii.Idle? && D.WellPlaced(D.LinkRead(v))
    requires Takes(PhyRead(b, PHIR).0.chip, Clear(EIE, 0x10), c)
    ensures Leads(a, D.Masked(v, D.LINKIF), c, D.Restore(v, D.LINKIF), 2, ReachesMii(b))
  {
    hide Leads, Evolves, PhyRead, ReachesMii;
    var p, q, r := D.Masked(v, D.LINKIF), D.LinkRead(v), D.Restore(v, D.LINKIF);
    var d, phy := PhyRead(b, PHIR).0.chip, ReachesMii(b);
    LinkReadLeads(b, v);
    EvolvesThenLeads(a, b.chip, p, d, q, 1, phy);
    assert AccessAt(q) == [Clear(EIE, 0x10)] && PcAfter(q) == r;
    assert Leads(d, q, c, r, 1, phy);
    LeadsTwice(a, p, d, q, c, r, 1, 1, phy);
  }

  // The reading of EIR.
  lemma SampleLeads(c: Chip, phy: bool)
    ensures var (d, v) := Flat(BankCache.Select(c, BANK_0), Read(EIR));
            Leads(c, D.Stored, d, D.Scan(Flags(v), 0), 1, phy)
  {
    hide Shows, Flat, Flags, Pinned;
    var (d, v) := Flat(BankCache.Select(c, BANK_0), Read(EIR));
    AccessLog(c, Read(EIR));
    AccessPins(c, Read(EIR));
    forall s: D.State | D.Static(s) && Shows(c, s) && s.pc == D.Stored
      ensures LeadsFrom(s, c, d, D.Scan(Flags(v), 0), 1, phy)
    {
      SampleIsPending(c, s);
      SameShown(d, s, D.Effect(s, D.Main(phy)));
      OwnStep(s, D.Main(phy), c, d, phy);
    }
  }

  // The PHIR read of a link change.
  lemma LinkReadLeads(p: Port, v: D.Flags)
    requires Weak(p) && p.chip.mii.Idle?
    ensures Leads(p.chip, D.Masked(v, D.LINKIF), PhyRead(p, PHIR).0.chip, D.LinkRead(v), 1, ReachesMii(p))
  {
    hide Shows, PhyRead, D.Cleared, Pinned, ReachesMii;
    PhyReadLog(p, PHIR);
    var d, phy := PhyRead(p, PHIR).0.chip, ReachesMii(p);
    forall s: D.State | D.Static(s) && Shows(p.chip, s) && s.pc == D.Masked(v, D.LINKIF)
      ensures LeadsFrom(s, p.chip, d, D.LinkRead(v), 1, phy)
    {
      LinkReadIsStep(p, s);
      OwnStep(s, D.Main(phy), p.chip, d, phy);
    }
  }

  // ----- a pass without events -----

  // In a pass, of the flags in EIR only those still to be handled are up, wake-on-LAN, which is
  // never cleared, and the link change if its PHIR read does not get through.
  predicate Worked(s: D.State, phy: bool)
  {
    && s.eir <= D.Rest(s.pc) + {D.WOLIF} + (if phy then {} else {D.LINKIF})
    && (s.pc.LinkRead? && phy ==> D.LINKIF !in s.eir)
  }

  lemma WorkedKept(s: D.State, x: D.Step, phy: bool)
    requires D.Static(s) && D.Enabled(s, x) && (x.Transmit? || x == D.Main(phy)) && (s.pc.Stored? || Worked(s, phy))
    ensures var t := D.Effect(s, x); t.pc.Stored? || Worked(t, phy)
  {
    hide D.State.Low, D.Exclusive, D.Conserved, D.Handle, D.Send, D.Sampled, Worked;
    if x.Transmit? { TransmitWorks(s, phy); }
    if x.Main? {
      if s.pc.Masked? { HandlerWorks(s, phy); }
      else if s.pc.Tx? { SendWorks(s, phy); }
      else if s.pc.Head? || D.Entering(s.pc) || s.pc.Scan? { LoopWorks(s, phy); }
      else { EndWorks(s, phy); }
    }
  }

  lemma TransmitWorks(s: D.State, phy: bool)
    requires D.Enabled(s, D.Transmit) && Worked(s, phy)
    ensures Worked(D.Effect(s, D.Transmit), phy)
  {
  }

  lemma LoopWorks(s: D.State, phy: bool)
    requires s.pc.Head? || D.Entering(s.pc) || s.pc.Scan?
    requires D.WellPlaced(s.pc) && (s.pc.Stored? || Worked(s, phy))
    ensures var t := D.Act(s, phy); t.pc.Stored? || Worked(t, phy)
  {
    if s.pc.Stored? { assert D.From(s.Pending(), 0) == s.Pending(); }
  }

  lemma EndWorks(s: D.State, phy: bool)
    requires s.pc.Released? || s.pc.LinkRead? || s.pc.Fetched? || s.pc.Input? || s.pc.Restore?
    requires D.WellPlaced(s.pc) && s.eir <= D.LATCHED && Worked(s, phy)
    ensures Worked(D.Act(s, phy), phy)
  {
    hide D.Handle, D.Send;
  }

  lemma HandlerWorks(s: D.State, phy: bool)
    requires s.pc.Masked? && D.WellPlaced(s.pc) && Worked(s, phy)
    ensures Worked(D.Handle(s, s.pc.sample, s.pc.k, phy), phy)
  {
  }

  lemma SendWorks(s: D.State, phy: bool)
    requires s.pc.Tx? && Worked(s, phy)
    ensures Worked(D.Send(s, s.pc.stage, s.pc.back), phy)
  {
  }

  lemma {:induction false} QuietRun(s: D.State, xs: seq<D.Step>, phy: bool)
    requires D.Static(s) && D.Legal(s, xs) && ChipSteps(xs) == [] && (s.pc.Stored? || Worked(s, phy))
    requires forall i | 0 <= i < |xs| :: !xs[i].Isr? && (xs[i].Main? ==> xs[i].phy == phy)
    ensures var t := D.After(s, xs); t.pc.Stored? || Worked(t, phy)
    decreases xs
  {
    hide D.Static, D.Enabled, D.Effect, Worked;
    if xs != [] {
      var x := xs[0];
      WorkedKept(s, x, phy);
      D.StaticKept(s, x);
      EdgeWorks(s, D.Effect(s, x), phy);
      QuietRun(D.Next(s, x), xs[1..], phy);
    }
  }

  lemma EdgeWorks(s: D.State, t: D.State, phy: bool)
    ensures s.Edge(t).pc == t.pc && Worked(s.Edge(t), phy) == Worked(t, phy)
  {
  }

  lemma Unflagged(x: Byte, k: nat)
    requires k < 6 && k !in Flags(x) - {D.PKTIF}
    ensures !Bit(x, k)
  {
    hide Bit;
  }

  // Some state of the machine before the reading of EIR fits the chip.
  ghost predicate Settled(c: Chip)
  {
    exists s: D.State :: D.Static(s) && Shows(c, s) && s.pc == D.Stored
  }

  // No flag is up but packets, wake-on-LAN and, unless its PHIR reads get through, the link change.
  predicate Cleared(c: Chip, phy: bool)
  {
    (forall k | k in {0, 1, 3, 5} :: !Bit(c.file[0x1C], k)) && (phy ==> !Bit(c.file[0x1C], 4))
  }

  // A pass leaves a fitting chip fitting, and clears its flags if the network side does nothing.
  lemma PassSettles(c: Chip, d: Chip, m: nat, phy: bool)
    requires Leads(c, D.Stored, d, D.Head, m, phy) && Settled(c)
    ensures Settled(d) && (d.log == c.log ==> Cleared(d, phy))
  {
    hide D.Static, D.Legal, D.After, Edges, Bit, Shows, D.Initial;
    var s: D.State :| D.Static(s) && Shows(c, s) && s.pc == D.Stored;
    assert LeadsFrom(s, c, d, D.Head, m, phy);
    var xs :| RunTo(s, xs, c, d, D.Head, m, phy);
    RunEnd(s, xs, c, d, D.Head, m, phy);
    HeadSettles(d, D.After(s, xs));
    if d.log == c.log {
      assert d.log[|c.log|..] == [];
      QuietRun(s, xs, phy);
      WorkedOff(d, D.After(s, xs), phy);
    }
  }

  lemma HeadSettles(d: Chip, s: D.State)
    requires D.Static(s) && Shows(d, s) && s.pc.Head?
    ensures Settled(d)
  {
    hide Bit;
    var t := s.(pc := D.Stored);
    assert D.Static(t) && Shows(d, t);
  }

  lemma WorkedOff(d: Chip, s: D.State, phy: bool)
    requires Shows(d, s) && s.pc.Head? && Worked(s, phy)
    ensures Cleared(d, phy)
  {
    hide Bit;
    forall k: nat | k < 6 && k !in s.eir ensures !Bit(d.file[0x1C], k) { Unflagged(d.file[0x1C], k); }
  }

  // ----- start-up -----

  // The started chip shows the machine's initial state.
  lemma StartedIsInitial(c: Chip, d: Chip)
    requires Started(c, d)
    ensures (exists s :: D.Initial(s) && Shows(d, s)) && Settled(d)
  {
    var s := D.State(D.ALL, true, {}, 0, false, false, 0, false, 0, 0, 0, D.Head);
    FlagsOfAll();
    EieOf(d);
    assert Shows(d, s);
    D.InitialInv(s);
    HeadSettles(d, s);
  }

  lemma FlagsOfAll()
    ensures Flags(0xFF) == D.ALL && Bit(0xFF, 7) && Flags(0x00) == {}
  {
    forall b | 0 <= b < 8 ensures Bit(0xFF, b) && !Bit(0, b) { AllBits(b); }
  }

  lemma AllBits(b: nat)
    requires b < 8
    ensures Bit(0xFF, b) && !Bit(0, b)
  {
    if b < 4 { if b == 0 {} else if b == 1 {} else if b == 2 {} else {} }
    else { if b == 4 {} else if b == 5 {} else if b == 6 {} else {} }
  }

  lemma EieOf(d: Chip)
    ensures d.Reg(EIE) == d.file[EIE]
  {
  }
}
