// The interrupt protocol between the chip, the EXTI line, the interrupt service routine and
// the main loop, one atomic action at a time. Chip events and the service routine may strike
// between any two actions, inside the load and store of the counter's decrement too.

module Dispatch {
  import opened Bytes

  // Sets of bit numbers of EIR and EIE. INTIE, bit 7 of EIE, is kept apart.
  type Flags = set<nat>
  const RXERIF := 0
  const TXERIF := 1
  const WOLIF := 2
  const TXIF := 3
  const LINKIF := 4
  const DMAIF := 5
  const PKTIF := 6
  const LATCHED: Flags := {RXERIF, TXERIF, WOLIF, TXIF, LINKIF, DMAIF}

  // The bits from k on.
  function From(v: Flags, k: nat): Flags { set b | b in v && k <= b }

  function One(b: bool): nat { if b then 1 else 0 }

  // Where a transmission was called from: the timers at the head of the loop, or the input
  // routine of a received packet.
  datatype Back = ToHead | ToInput(sample: Flags)

  // The next action of the main program.
  datatype Pc =
    | Head                                     // test the counter
    | Tested                                   // the counter was positive; load it
    | Loaded(reg: nat)                         // store what was loaded, decremented
    | Stored                                   // read EIR
    | Scan(sample: Flags, k: nat)              // test bit k of the sample
    | Masked(sample: Flags, k: nat)            // INTIE is off; handle bit k
    | Released(sample: Flags)                  // TXIF is clear; reset bTxBusy
    | LinkRead(sample: Flags)                  // PHIR is read; clear LINKIE
    | Fetched(sample: Flags)                   // the packet is read; issue PKTDEC
    | Input(sample: Flags, replied: bool)      // hand the packet to the stack
    | Restore(sample: Flags, k: nat)           // set INTIE
    | Tx(stage: nat, back: Back)               // inside a transmission

  datatype State = State(
    eie: Flags, intie: bool, eir: Flags,       // PKTIF is not latched, it follows the count
    count: nat, txrts: bool,                   // EPKTCNT and ECON1.TXRTS
    exti: bool, counter: nat,                  // latched edge and enc28j60intCounter
    busy: bool,                                // bTxBusy
    accepted: nat, received: nat,              // packets stored by the chip, calls of etherReceive
    samples: nat,                              // reads of EIR
    pc: Pc)
  {
    function Pending(): Flags { if count > 0 then eir + {PKTIF} else eir }

    predicate Asserted() { Pending() * eie != {} }

    // The INT pin, active low.
    predicate Low() { intie && Asserted() }

    // A falling edge between two states is latched.
    function Edge(t: State): State { t.(exti := t.exti || (!Low() && t.Low())) }
  }

  datatype Step =
    | Arrive | RxError | Wake | Link | Dma | TxEnd(failed: bool)    // the chip
    | Isr                                                           // the service routine
    | Transmit                                                      // a frame is accepted for sending
    | Main(phy: bool)              // the main program; phy: a PHIR read reaches the PHY

  predicate Enabled(s: State, x: Step) {
    match x
    case Arrive => s.count < 255
    case TxEnd(_) => s.txrts
    case Isr => s.exti
    case Transmit => (s.pc.Head? || s.pc.Input?) && !s.busy
    case Main(_) => s.pc.Head? ==> s.counter > 0
    case _ => true
  }

  function Effect(s: State, x: Step): State
    requires Enabled(s, x)
  {
    match x
    case Arrive => s.(count := s.count + 1, accepted := s.accepted + 1)
    case RxError => s.(eir := s.eir + {RXERIF})
    case Wake => s.(eir := s.eir + {WOLIF})
    case Link => s.(eir := s.eir + {LINKIF})
    case Dma => s.(eir := s.eir + {DMAIF})
    case TxEnd(failed) => s.(txrts := false, eir := s.eir + if failed then {TXIF, TXERIF} else {TXIF})
    case Isr => s.(exti := false, counter := (s.counter + 1) % WRAP)
    case Transmit => s.(pc := Tx(0, if s.pc.Head? then ToHead else ToInput(s.pc.sample)))
    case Main(phy) => Act(s, phy)
  }

  function Act(s: State, phy: bool): State
  {
    match s.pc
    case Head => s.(pc := Tested)
    case Tested => s.(pc := Loaded(s.counter))
    case Loaded(reg) => s.(counter := if reg == 0 then WRAP - 1 else reg - 1, pc := Stored)
    case Stored => s.(samples := s.samples + 1, pc := Scan(s.Pending(), 0))
    case Scan(v, k) =>
      if k >= 8 then s.(pc := Head)
      else if k in v then s.(intie := false, pc := Masked(v, k))
      else s.(pc := Scan(v, k + 1))
    case Masked(v, k) => Handle(s, v, k, phy)
    case Released(v) => s.(busy := false, pc := Restore(v, TXIF))
    case LinkRead(v) => s.(eie := s.eie - {LINKIF}, pc := Restore(v, LINKIF))
    case Fetched(v) => s.(count := if s.count > 0 then s.count - 1 else 0, pc := Input(v, false))
    case Input(v, _) => s.(pc := Restore(v, PKTIF))
    case Restore(v, k) => s.(intie := true, pc := Scan(v, k + 1))
    case Tx(stage, back) => Send(s, stage, back)
  }

  // The handler of bit k: what it clears in EIR, and what comes next. WOLIF is not cleared,
  // LINKIF only if the PHIR read gets through, and PKTIF by counting down.
  function Cleared(eir: Flags, k: nat, phy: bool): Flags
  {
    if k == WOLIF || k == PKTIF || (k == LINKIF && !phy) then eir else eir - {k}
  }

  function AfterHandler(v: Flags, k: nat): Pc
  {
    if k == TXIF then Released(v)
    else if k == LINKIF then LinkRead(v)
    else if k == PKTIF then Fetched(v)
    else Restore(v, k)
  }

  function Handle(s: State, v: Flags, k: nat, phy: bool): State
  {
    s.(eir := Cleared(s.eir, k, phy), received := s.received + One(k == PKTIF), pc := AfterHandler(v, k))
  }

  // The accesses with which a transmission ends, once the frame is in the buffer.
  function Send(s: State, stage: nat, back: Back): State
  {
    if stage == 0 then s.(eir := s.eir - {TXIF}, pc := Tx(1, back))
    else if stage == 1 then s.(eie := s.eie + {TXIF}, pc := Tx(2, back))
    else if stage == 2 then s.(intie := true, pc := Tx(3, back))
    else if stage == 3 then s.(txrts := true, pc := Tx(4, back))
    else s.(busy := true, pc := match back case ToHead => Head case ToInput(v) => Input(v, true))
  }

  function Next(s: State, x: Step): State
    requires Enabled(s, x)
  {
    s.Edge(Effect(s, x))
  }

  // ----- the invariant -----

  // Bits sampled in this pass and not handled yet.
  function Rest(pc: Pc): Flags {
    match pc
    case Scan(v, k) => From(v, k)
    case Masked(v, k) => From(v, k)
    case Released(v) => From(v, 4)
    case LinkRead(v) => From(v, 4)
    case Fetched(v) => From(v, 6)
    case Restore(v, k) => From(v, k + 1)
    case _ => {}
  }

  predicate Sampled(v: Flags) { v <= LATCHED + {PKTIF} }

  predicate WellPlaced(pc: Pc) {
    match pc
    case Scan(v, k) => k <= 8 && Sampled(v)
    case Masked(v, k) => k in v && Sampled(v)
    case Released(v) => Sampled(v)
    case LinkRead(v) => LINKIF in v && Sampled(v)
    case Fetched(v) => PKTIF in v && Sampled(v)
    case Input(v, _) => Sampled(v)
    case Restore(v, k) => k <= 6 && Sampled(v)
    case Tx(stage, ToInput(v)) => stage <= 4 && Sampled(v)
    case Tx(stage, ToHead) => stage <= 4
    case _ => true
  }

  // Between the test of the counter and the reading of EIR.
  predicate Entering(pc: Pc) { pc.Tested? || pc.Loaded? || pc.Stored? }

  // Everything but the link-change interrupt stays enabled, and INTIE is on outside the handlers
  // and, until a packet is handed to the stack, off inside them.
  predicate Enables(s: State) {
    && LATCHED + {PKTIF} - {LINKIF} <= s.eie && s.eir <= LATCHED
    && (s.pc.Head? || Entering(s.pc) || s.pc.Scan? || (s.pc.Tx? && s.pc.back.ToHead?) ==> s.intie)
    && (s.pc.Masked? || s.pc.Released? || s.pc.LinkRead? || s.pc.Fetched? ==> !s.intie)
    && (s.pc.Restore? && s.pc.k != PKTIF ==> !s.intie)
  }

  predicate Armed(s: State) { s.counter > 0 || s.exti }

  // This pass is still to sample EIR or to handle a sampled bit.
  predicate Excused(pc: Pc) { Entering(pc) || (pc.Scan? && Rest(pc) != {}) }

  // A low pin is always going to be noticed: the counter is up, an edge is latched, or this
  // pass is still to see to it.
  predicate Awake(s: State) {
    && s.counter < WRAP
    && (s.pc.Loaded? ==> s.pc.reg < WRAP)
    && (s.Low() ==> Armed(s) || Excused(s.pc))
  }

  // The busy flag stands for a frame under way or a completion not yet acknowledged.
  predicate Exclusive(s: State) {
    && (s.pc.Tx? && s.pc.stage <= 3 ==> !s.busy && !s.txrts && TXIF !in s.eir)
    && (s.pc.Tx? && s.pc.stage == 4 ==> !s.busy && s.txrts == (TXIF !in s.eir))
    && (s.pc.Released? ==> s.busy && !s.txrts && TXIF !in s.eir)
    && (!s.pc.Tx? && !s.pc.Released? ==> s.busy == (s.txrts || (TXIF in s.eir)) && !(s.txrts && (TXIF in s.eir)))
    && (TXIF in Rest(s.pc) ==> TXIF in s.eir)
    && (s.pc.Input? && s.pc.replied ==> s.busy)
  }

  // What arrived has been received or is counted; the count does not underflow.
  predicate Conserved(s: State) {
    && s.accepted + One(s.pc.Fetched?) == s.received + s.count
    && (PKTIF in Rest(s.pc) ==> s.count > 0)
  }

  predicate Inv(s: State) {
    WellPlaced(s.pc) && Enables(s) && Awake(s) && Exclusive(s) && Conserved(s)
  }

  const ALL: Flags := LATCHED + {PKTIF}

  // After start-up, at the head of the loop for the first time.
  predicate Initial(s: State) {
    && s.eie == ALL && s.intie && s.eir == {} && s.count == 0 && !s.txrts
    && !s.exti && s.counter == 0 && !s.busy && s.accepted == s.received && s.pc == Head
  }

  // The counter goes round to 0 with the pin low and nothing left in this pass to see to it.
  predicate Loses(s: State, x: Step) {
    x.Isr? && s.counter + 1 == WRAP && s.Low() && !Excused(s.pc)
  }

  // The invariant but for the wake-up part, which also looks at the edge.
  predicate Static(s: State) { WellPlaced(s.pc) && Enables(s) && Exclusive(s) && Conserved(s) }

  lemma ChipKeeps(s: State, x: Step)
    requires Static(s) && Enabled(s, x) && !x.Main? && !x.Transmit?
    ensures Static(Effect(s, x))
  {
  }

  lemma HandlerKeeps(s: State, phy: bool)
    requires Static(s) && s.pc.Masked?
    ensures Static(Handle(s, s.pc.sample, s.pc.k, phy))
  {
  }

  lemma SendKeeps(s: State)
    requires Static(s) && s.pc.Tx?
    ensures Static(Send(s, s.pc.stage, s.pc.back))
  {
  }

  lemma LoopKeeps(s: State, x: Step)
    requires Static(s) && Enabled(s, x) && (x.Main? || x.Transmit?)
    requires x.Main? ==> s.pc.Head? || Entering(s.pc) || s.pc.Scan?
    ensures Static(Effect(s, x))
  {
    if x.Main? && s.pc.Scan? { ScanKeeps(s); } else if x.Main? { EntryKeeps(s); } else { TransmitKeeps(s); }
  }

  lemma ScanKeeps(s: State)
    requires Static(s) && s.pc.Scan?
    ensures Static(Act(s, false)) && Act(s, true) == Act(s, false)
  {
    var v, k := s.pc.sample, s.pc.k;
    assert From(v, k + 1) <= From(v, k);
  }

  lemma EntryKeeps(s: State)
    requires Static(s) && (s.pc.Head? || Entering(s.pc))
    ensures Static(Act(s, false)) && Act(s, true) == Act(s, false)
  {
    if s.pc.Stored? { assert From(s.Pending(), 0) == s.Pending(); }
  }

  lemma TransmitKeeps(s: State)
    requires Static(s) && Enabled(s, Transmit)
    ensures Static(Effect(s, Transmit))
  {
  }

  lemma EndKeeps(s: State, phy: bool)
    requires Static(s) && (s.pc.Released? || s.pc.LinkRead? || s.pc.Fetched? || s.pc.Input? || s.pc.Restore?)
    ensures Static(Act(s, phy))
  {
  }

  // An action that keeps the counter and the latch, in a state that owes nothing.
  lemma EdgeWakes(s: State, t: State)
    requires Awake(s) && !Excused(s.pc) && t.counter == s.counter && t.exti == s.exti
    requires t.pc.Loaded? ==> t.pc.reg < WRAP
    ensures Awake(s.Edge(t))
  {
    hide State.Low, From;
    EdgePin(s, t);
  }

  lemma EdgePin(s: State, t: State)
    ensures s.Edge(t).Low() == t.Low()
  {
  }

  lemma AwakeInHandler(s: State, x: Step)
    requires WellPlaced(s.pc) && Awake(s) && Enabled(s, x) && (x.Main? || x.Transmit?)
    requires !Entering(s.pc) && !s.pc.Scan?
    ensures Awake(Next(s, x))
  {
    hide State.Low, From, Handle, Send;
    OnlyPins(s, s.pc);
    EdgeWakes(s, Effect(s, x));
  }

  // Handlers and transmissions leave the counter and the latch alone.
  lemma OnlyPins(s: State, pc: Pc)
    ensures pc.Masked? ==> forall phy :: var t := Handle(s, pc.sample, pc.k, phy);
                             t.counter == s.counter && t.exti == s.exti && !t.pc.Loaded?
    ensures pc.Tx? ==> var t := Send(s, pc.stage, pc.back);
                       t.counter == s.counter && t.exti == s.exti && !t.pc.Loaded?
  {
  }

  lemma AwakeInScan(s: State, x: Step)
    requires WellPlaced(s.pc) && Awake(s) && Enabled(s, x) && x.Main? && s.pc.Scan?
    ensures Awake(Next(s, x))
  {
    if s.pc.k !in s.pc.sample { SkipBit(s.pc.sample, s.pc.k); }
  }

  lemma SkipBit(v: Flags, k: nat)
    requires k !in v
    ensures From(v, k + 1) == From(v, k)
  {
  }

  lemma AwakeAtSample(s: State, x: Step)
    requires Awake(s) && Enabled(s, x) && x.Main? && Entering(s.pc)
    ensures Awake(Next(s, x))
  {
    if s.pc.Stored? {
      assert From(s.Pending(), 0) == s.Pending();
    }
  }

  lemma AwakeUnderChip(s: State, x: Step)
    requires Awake(s) && Enabled(s, x) && !Loses(s, x) && !x.Main? && !x.Transmit?
    ensures Awake(Next(s, x))
  {
    hide State.Low, From;
    EdgePin(s, Effect(s, x));
    if x.Isr? { SamePin(s, Effect(s, x)); }
  }

  lemma SamePin(s: State, t: State)
    requires t.eie == s.eie && t.intie == s.intie && t.eir == s.eir && t.count == s.count
    ensures t.Low() == s.Low()
  {
  }

  lemma AwakeKept(s: State, x: Step)
    requires WellPlaced(s.pc) && Awake(s) && Enabled(s, x) && !Loses(s, x)
    ensures Awake(Next(s, x))
  {
    hide Awake, WellPlaced, Next;
    if !x.Main? && !x.Transmit? { AwakeUnderChip(s, x); }
    else if s.pc.Scan? { AwakeInScan(s, x); }
    else if Entering(s.pc) { AwakeAtSample(s, x); }
    else { AwakeInHandler(s, x); }
  }

  lemma StaticKept(s: State, x: Step)
    requires Static(s) && Enabled(s, x)
    ensures Static(Next(s, x))
  {
    hide WellPlaced, Enables, Exclusive, Conserved, Handle, Send;
    if x.Main? && s.pc.Masked? { HandlerKeeps(s, x.phy); }
    else if x.Main? && s.pc.Tx? { SendKeeps(s); }
    else if x.Main? && !(s.pc.Head? || Entering(s.pc) || s.pc.Scan?) { EndKeeps(s, x.phy); }
    else if x.Main? || x.Transmit? { LoopKeeps(s, x); }
    else { ChipKeeps(s, x); }
    EdgeOnly(s, Effect(s, x));
  }

  lemma InvKept(s: State, x: Step)
    requires Inv(s) && Enabled(s, x) && !Loses(s, x)
    ensures Inv(Next(s, x))
  {
    hide WellPlaced, Enables, Exclusive, Conserved, Awake, Next, Loses;
    StaticKept(s, x);
    AwakeKept(s, x);
  }

  lemma EdgeOnly(s: State, t: State)
    ensures Enables(s.Edge(t)) == Enables(t) && Exclusive(s.Edge(t)) == Exclusive(t)
    ensures Conserved(s.Edge(t)) == Conserved(t) && s.Edge(t).pc == t.pc
  {
  }

  // ----- runs -----

  ghost predicate Legal(s: State, xs: seq<Step>)
    decreases xs
  {
    xs == [] || (Enabled(s, xs[0]) && Legal(Next(s, xs[0]), xs[1..]))
  }

  ghost function After(s: State, xs: seq<Step>): State
    requires Legal(s, xs)
    decreases xs
  {
    if xs == [] then s else After(Next(s, xs[0]), xs[1..])
  }

  lemma {:induction false} RunsOn(s: State, xs: seq<Step>, x: Step)
    requires Legal(s, xs) && Enabled(After(s, xs), x)
    ensures Legal(s, xs + [x]) && After(s, xs + [x]) == Next(After(s, xs), x)
    decreases xs
  {
    hide Next, Enabled;
    if xs == [] {
      assert ([] + [x])[1..] == [];
      assert xs + [x] == [x] && [x][1..] == [];
      assert Legal(Next(s, x), [x][1..]);
    } else {
      assert (xs + [x])[1..] == xs[1..] + [x];
      RunsOn(Next(s, xs[0]), xs[1..], x);
    }
  }

  // Somewhere in the run the service routine loses a wake-up.
  ghost predicate LossIn(s: State, xs: seq<Step>)
    requires Legal(s, xs)
    decreases xs
  {
    xs != [] && (Loses(s, xs[0]) || LossIn(Next(s, xs[0]), xs[1..]))
  }

  lemma InitialInv(s: State)
    requires Initial(s)
    ensures Inv(s)
  {
  }

  lemma {:induction false} StaticAlways(s: State, xs: seq<Step>)
    requires Static(s) && Legal(s, xs)
    ensures Static(After(s, xs))
    decreases xs
  {
    hide Static, Next, Enabled;
    if xs != [] {
      StaticKept(s, xs[0]);
      StaticAlways(Next(s, xs[0]), xs[1..]);
    }
  }

  lemma {:induction false} InvAlways(s: State, xs: seq<Step>)
    requires Inv(s) && Legal(s, xs) && !LossIn(s, xs)
    ensures Inv(After(s, xs))
    decreases xs
  {
    hide Inv, Next, Loses, Enabled;
    if xs != [] {
      InvKept(s, xs[0]);
      InvAlways(Next(s, xs[0]), xs[1..]);
    }
  }

  // No lost wake-up: whenever the loop is at its head and the pin is low, the counter is up or
  // an edge is waiting for the service routine.
  lemma NoLostWakeup(s: State, xs: seq<Step>)
    requires Initial(s) && Legal(s, xs) && !LossIn(s, xs)
    ensures var t := After(s, xs); t.pc.Head? && t.Low() ==> t.counter > 0 || t.exti
  {
    hide State.Low, Initial, Enables, Exclusive, Conserved, LossIn;
    InitialInv(s);
    InvAlways(s, xs);
  }

  // A frame is loaded and the transmitter started only while it is idle; once the call has
  // returned the flag says so; and a set flag is never stale: the frame is under way, or its
  // completion is pending and, at the head of the loop, about to be noticed.
  lemma TransmitExclusion(s: State, xs: seq<Step>)
    requires Initial(s) && Legal(s, xs)
    ensures var t := After(s, xs);
            && ((t.pc.Tx? && t.pc.stage <= 3) || (Enabled(t, Transmit)) ==> !t.txrts)
            && (t.txrts && !t.pc.Tx? ==> t.busy)
            && (t.busy && !t.txrts && !t.pc.Released? ==> (TXIF in t.eir))
            && (t.busy && !t.txrts && t.pc.Head? ==> t.Low() && (LossIn(s, xs) || t.counter > 0 || t.exti))
  {
    hide Initial, Conserved, LossIn;
    InitialInv(s);
    StaticAlways(s, xs);
    if !LossIn(s, xs) { NoLostWakeup(s, xs); }
  }

  // Every packet stored is received or still counted, PKTDEC comes once per receive, and the
  // count is positive whenever one is issued.
  lemma PacketConservation(s: State, xs: seq<Step>)
    requires Initial(s) && Legal(s, xs)
    ensures var t := After(s, xs);
            && t.accepted + One(t.pc.Fetched?) == t.received + t.count
            && (t.pc.Fetched? ==> t.count > 0)
  {
    hide Initial, Exclusive, Awake, Enables;
    InitialInv(s);
    StaticAlways(s, xs);
  }
}
