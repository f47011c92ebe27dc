// Draining: with the wire silent the dispatcher comes to rest with nothing left to do. A rank
// shows it, and what prevents it is told exactly.

module Draining {
  import opened Bytes
  import opened Dispatch
  import opened Wakeup

  // The wire is silent, nothing else is raised, and frames are sent only in reply to a
  // received packet.
  predicate QuietStep(s: State, x: Step)
  {
    x.TxEnd? || x.Isr? || x.Main? || (x.Transmit? && s.pc.Input?)
  }

  // Flags raised and enabled, other than WOLIF, which is never cleared.
  function Raised(s: State): Flags { s.eir * s.eie - {WOLIF} }

  // This pass may still send a reply.
  predicate MayReply(pc: Pc) { PKTIF in Rest(pc) || (pc.Input? && !pc.replied) || (pc.Tx? && pc.stage <= 3) }

  // The times this pass may still raise INTIE.
  function Edges(pc: Pc): nat
  {
    |Rest(pc)| + One(pc.Released? || pc.Restore? || pc.Input? || pc.Tx?)
    + One(PKTIF in Rest(pc) || (pc.Input? && !pc.replied) || (pc.Tx? && pc.stage <= 2))
  }

  predicate Hot(s: State) { Raised(s) != {} || s.count > 0 || MayReply(s.pc) }

  function Place(pc: Pc): int
  {
    match pc
    case Loaded(_) => 0
    case Tested => 1
    case Head => 2
    case Tx(stage, ToHead) => 7 - stage
    case Scan(v, k) => 20 * (8 - k) + 19
    case Masked(v, k) => 20 * (8 - k) + 18
    case Released(_) => 20 * 5 + 17
    case LinkRead(_) => 20 * 4 + 17
    case Fetched(_) => 20 * 2 + 17
    case Input(_, replied) => if replied then 20 * 2 + 10 else 20 * 2 + 16
    case Tx(stage, ToInput(_)) => 20 * 2 + 15 - stage
    case Restore(_, k) => 20 * (8 - k) + 9
    case Stored => 200
  }

  // Packets this pass will not take; what is under way, or raised and not going to be handled
  // by this pass; wake-ups owed; and the place in the program.
  function Rank1(s: State): int { s.count - One(PKTIF in Rest(s.pc)) }
  function Rank2(s: State): nat { 3 * One(s.txrts) + |Raised(s) - Rest(s.pc)| + 4 * One(MayReply(s.pc)) }
  function Rank3(s: State): nat { 2 * Owing(s) + 3 * One(s.exti) + 4 * (if Hot(s) then Edges(s.pc) else 0) }

  // What the counter stands for: between the test and the store a wrap is made good by the
  // decrement, which goes round the other way.
  function Owing(s: State): nat
  {
    match s.pc
    case Tested => if s.counter == 0 then WRAP else s.counter
    case Loaded(reg) => if reg == 0 then WRAP else reg
    case _ => s.counter
  }

  predicate Descends(s: State, t: State)
  {
    || Rank1(t) < Rank1(s)
    || (Rank1(t) == Rank1(s) && Rank2(t) < Rank2(s))
    || (Rank1(t) == Rank1(s) && Rank2(t) == Rank2(s) && Rank3(t) < Rank3(s))
    || (Rank1(t) == Rank1(s) && Rank2(t) == Rank2(s) && Rank3(t) == Rank3(s) && Place(t.pc) < Place(s.pc))
  }

  lemma RanksBounded(s: State)
    requires Inv(s)
    ensures Rank1(s) >= 0 && Place(s.pc) >= 0
  {
  }

  // An action that only moves on, or handles what its pass has already been charged for.
  lemma ByPlace(s: State, t: State)
    requires Rank1(t) == Rank1(s) && t.txrts == s.txrts && (MayReply(t.pc) ==> MayReply(s.pc))
    requires Raised(t) - Rest(t.pc) <= Raised(s) - Rest(s.pc)
    requires Owing(t) == Owing(s) && t.exti == s.exti
    requires (Hot(t) ==> Hot(s) && Edges(t.pc) <= Edges(s.pc)) && Place(t.pc) < Place(s.pc)
    ensures Descends(s, t)
  {
    hide Rank1, Raised, Rest, MayReply, Hot, Edges, Place, Owing;
    Smaller(Raised(t) - Rest(t.pc), Raised(s) - Rest(s.pc));
  }

  // An action that sets INTIE, which may raise an edge if there is something to raise it.
  lemma ByEdge(s: State, t: State)
    requires Rank1(t) == Rank1(s) && t.txrts == s.txrts && (MayReply(t.pc) ==> MayReply(s.pc))
    requires Raised(t) - Rest(t.pc) <= Raised(s) - Rest(s.pc)
    requires Owing(t) == Owing(s) && (t.exti ==> s.exti || Hot(s))
    requires (Hot(t) ==> Hot(s)) && Edges(t.pc) + 1 <= Edges(s.pc) && Place(t.pc) < Place(s.pc)
    ensures Descends(s, t)
  {
    hide Rank1, Raised, Rest, MayReply, Hot, Edges, Place, Owing;
    Smaller(Raised(t) - Rest(t.pc), Raised(s) - Rest(s.pc));
  }

  lemma Smaller(a: set<nat>, b: set<nat>)
    requires a <= b
    ensures |a| <= |b|
  {
    var rest := b - a;
    assert a + rest == b && a * rest == {};
  }

  // Clearing flags and enables raises no edge.
  lemma Quieter(s: State, t: State)
    requires (t.intie ==> s.intie) && t.count <= s.count && t.eie <= s.eie && t.eir <= s.eir
    ensures s.Edge(t) == t
  {
  }

  lemma TakeBit(v: Flags, k: nat)
    requires k in v
    ensures |From(v, k)| == 1 + |From(v, k + 1)| && From(v, k) == From(v, k + 1) + {k}
  {
    assert From(v, k) == From(v, k + 1) + {k};
  }

  lemma DescentAtTxEnd(s: State, x: Step)
    requires Inv(s) && Enabled(s, x) && x.TxEnd?
    ensures Descends(s, Next(s, x))
  {
    hide Edges, Rest, MayReply, Inv;
    var t := Next(s, x);
    var a, b := Raised(s) - Rest(s.pc), Raised(t) - Rest(t.pc);
    assert b <= a + {TXIF, TXERIF};
    Smaller(b, a + {TXIF, TXERIF});
    AtMostTwo(a);
  }

  lemma DescentInIsr(s: State, x: Step)
    requires Inv(s) && Enabled(s, x) && x.Isr?
    ensures Descends(s, Next(s, x))
  {
    hide Edges, Rest, MayReply;
    var t := Effect(s, x);
    SamePin(s, t);
    NextIs(s, x, t);
    hide Inv, Next;
    ByIsr(s, t);
  }

  lemma ByIsr(s: State, t: State)
    requires s.exti && s.counter < WRAP && (s.pc.Loaded? ==> s.pc.reg < WRAP)
    requires t == s.(exti := false, counter := (s.counter + 1) % WRAP)
    ensures Descends(s, t)
  {
    assert Raised(t) == Raised(s);
    hide Raised, Edges, Rest, MayReply;
    assert Hot(t) == Hot(s);
    hide Hot;
    assert Rank1(t) == Rank1(s) && Rank2(t) == Rank2(s);
    OneMoreOwed(s, t);
    hide Rank1, Rank2, Owing;
  }

  lemma OneMoreOwed(s: State, t: State)
    requires s.counter < WRAP && t == s.(exti := false, counter := (s.counter + 1) % WRAP)
    ensures Owing(t) <= Owing(s) + 1
  {
  }

  lemma AtMostTwo(a: set<nat>)
    ensures |a + {TXIF, TXERIF}| <= |a| + 2
  {
    var b := a + {TXIF};
    assert a + {TXIF, TXERIF} == b + {TXERIF};
  }

  lemma DescentInLoop(s: State, x: Step)
    requires Inv(s) && Enabled(s, x) && x.Main? && (s.pc.Head? || s.pc.Tested? || s.pc.Loaded?)
    ensures Descends(s, Next(s, x))
  {
    hide Inv, Next, Descends, Raised;
    var t := Effect(s, x);
    SamePin(s, t);
    NextIs(s, x, t);
    if s.pc.Loaded? { ByStore(s, t); } else { ByEntry(s, t); }
  }

  lemma ByEntry(s: State, t: State)
    requires (s.pc.Head? && s.counter > 0 && t == s.(pc := Tested))
             || (s.pc.Tested? && t == s.(pc := Loaded(s.counter)))
    ensures Descends(s, t)
  {
    assert Raised(t) == Raised(s);
    hide Raised, Descends;
    ByPlace(s, t);
  }

  lemma ByStore(s: State, t: State)
    requires s.pc.Loaded? && t == s.(counter := if s.pc.reg == 0 then WRAP - 1 else s.pc.reg - 1, pc := Stored)
    ensures Descends(s, t)
  {
    assert Raised(t) == Raised(s) && Rest(s.pc) == Rest(t.pc) == {};
    hide Raised, Rest;
  }

  lemma DescentAtSample(s: State, x: Step)
    requires Inv(s) && Enabled(s, x) && x.Main? && s.pc.Stored?
    ensures Descends(s, Next(s, x))
  {
    var t := Effect(s, x);
    SamePin(s, t);
    assert t == s.(samples := s.samples + 1, pc := Scan(s.Pending(), 0)) && s.eir <= LATCHED;
    hide Inv, Next, Effect;
    SampleRest(s, t.pc);
    SampleDescends(s, t);
  }

  lemma SampleDescends(s: State, t: State)
    requires s.pc.Stored? && t == s.(samples := s.samples + 1, pc := Scan(s.Pending(), 0))
    requires Raised(s) - Rest(t.pc) == {} && Raised(s) - Rest(s.pc) == Raised(s)
    requires PKTIF in Rest(t.pc) <==> s.count > 0
    ensures Descends(s, t)
  {
    assert Raised(t) == Raised(s) && Rest(s.pc) == {};
    hide Raised, Rest, Edges;
    if s.count == 0 {
      if Raised(s) == {} { ByPlace(s, t); } else { Smaller({}, Raised(s)); }
    }
  }

  lemma SampleRest(s: State, pc: Pc)
    requires pc == Scan(s.Pending(), 0) && s.eir <= LATCHED && s.pc.Stored?
    ensures Rest(pc) == s.Pending() && (PKTIF in Rest(pc) <==> s.count > 0)
    ensures Raised(s) - Rest(pc) == {} && Raised(s) - Rest(s.pc) == Raised(s)
  {
  }

  lemma DescentInScan(s: State, x: Step)
    requires Inv(s) && Enabled(s, x) && x.Main? && s.pc.Scan?
    ensures Descends(s, Next(s, x))
  {
    var t, v, k := Effect(s, x), s.pc.sample, s.pc.k;
    Quieter(s, t);
    if k !in v { SkipBit(v, k); }
    assert k == 8 ==> From(v, k) == {};
    assert Rest(t.pc) == Rest(s.pc);
    ByPlace(s, t);
  }

  lemma DescentInHandler(s: State, x: Step)
    requires Inv(s) && Enabled(s, x) && x.Main? && s.pc.Masked?
    ensures Descends(s, Next(s, x))
  {
    var t, v, k := Effect(s, x), s.pc.sample, s.pc.k;
    assert t == Handle(s, v, k, x.phy) && k in v && k <= 6;
    hide Inv, Next, Effect, Place, Edges, Rest, Descends;
    Quieter(s, t);
    assert Next(s, x) == t by { NextIs(s, x, t); }
    HandledPlace(v, k);
    HandledRaised(s, v, k, x.phy);
    hide Handle, Raised;
    ByPlace(s, t);
  }

  lemma NextIs(s: State, x: Step, t: State)
    requires Enabled(s, x) && t == Effect(s, x) && s.Edge(t) == t
    ensures Next(s, x) == t
  {
  }

  lemma HandledPlace(v: Flags, k: nat)
    requires k in v && k <= 6
    ensures var p, q := Masked(v, k), AfterHandler(v, k);
            && Rest(q) == (if k == LINKIF || k == PKTIF then From(v, k) else From(v, k + 1)) && Rest(p) == From(v, k)
            && Edges(q) == Edges(p) && Place(q) < Place(p) && MayReply(q) == MayReply(p)
            && (PKTIF in Rest(q) <==> PKTIF in Rest(p))
  {
    TakeBit(v, k);
  }

  // A handled bit is charged to neither side.
  lemma HandledRaised(s: State, v: Flags, k: nat, phy: bool)
    requires k in v && Rest(s.pc) == From(v, k)
    requires Rest(AfterHandler(v, k)) == if k == LINKIF || k == PKTIF then From(v, k) else From(v, k + 1)
    ensures var t := Handle(s, v, k, phy);
            Raised(t) <= Raised(s) && Raised(t) - Rest(t.pc) <= Raised(s) - Rest(s.pc)
  {
    TakeBit(v, k);
  }

  // The ends of the handlers of bits 3, 4 and 6.
  lemma DescentInInput(s: State, x: Step)
    requires Inv(s) && Enabled(s, x) && (x.Main? || x.Transmit?)
    requires s.pc.Released? || s.pc.LinkRead? || s.pc.Fetched? || s.pc.Input?
    ensures Descends(s, Next(s, x))
  {
    var t := Effect(s, x);
    Quieter(s, t);
    NextIs(s, x, t);
    if s.pc.Released? { DescentFromReleased(s, t); }
    else if s.pc.LinkRead? { DescentFromLinkRead(s, t); }
    else if s.pc.Fetched? { DescentFromFetched(s, t); }
    else { DescentFromInput(s, t); }
  }

  lemma DescentFromReleased(s: State, t: State)
    requires s.pc.Released? && t == s.(busy := false, pc := Restore(s.pc.sample, TXIF))
    ensures Descends(s, t)
  {
    assert Rest(t.pc) == Rest(s.pc);
    hide Descends;
    ByPlace(s, t);
  }

  lemma DescentFromLinkRead(s: State, t: State)
    requires s.pc.LinkRead? && LINKIF in s.pc.sample
    requires t == s.(eie := s.eie - {LINKIF}, pc := Restore(s.pc.sample, LINKIF))
    ensures Descends(s, t)
  {
    TakeBit(s.pc.sample, LINKIF);
    assert Edges(t.pc) == Edges(s.pc);
    assert PKTIF in Rest(t.pc) <==> PKTIF in Rest(s.pc);
    hide Descends;
    ByPlace(s, t);
  }

  lemma DescentFromFetched(s: State, t: State)
    requires s.pc.Fetched? && PKTIF in s.pc.sample && Sampled(s.pc.sample) && s.count > 0 && s.eir <= LATCHED
    requires t == s.(count := s.count - 1, pc := Input(s.pc.sample, false))
    ensures Descends(s, t)
  {
    assert Rest(s.pc) == {PKTIF};
    assert Edges(t.pc) == 2 == Edges(s.pc);
    hide Descends;
    ByPlace(s, t);
  }

  lemma DescentFromInput(s: State, t: State)
    requires s.pc.Input? && Sampled(s.pc.sample)
    requires t == s.(pc := Restore(s.pc.sample, PKTIF)) || (!s.pc.replied && t == s.(pc := Tx(0, ToInput(s.pc.sample))))
    ensures Descends(s, t)
  {
    assert t.pc.Restore? ==> Rest(t.pc) == {};
    if t.pc.Tx? || s.pc.replied { ByPlace(s, t); }
  }

  lemma DescentAtRestore(s: State, x: Step)
    requires Inv(s) && Enabled(s, x) && WOLIF !in s.eir && x.Main? && s.pc.Restore?
    ensures Descends(s, Next(s, x))
  {
    hide Descends, Inv, Next, Enabled;
    RestoreEffect(s, x);
    ByRestore(s, Next(s, x));
  }

  lemma RestoreEffect(s: State, x: Step)
    requires Inv(s) && Enabled(s, x) && x.Main? && s.pc.Restore?
    ensures var t := Next(s, x);
            && t == s.(intie := true, pc := Scan(s.pc.sample, s.pc.k + 1), exti := t.exti) && s.pc.k <= 6
            && (t.exti ==> s.exti || t.Low())
  {
    hide From, Awake, Exclusive, Conserved, Handle, Send;
  }

  lemma ByRestore(s: State, t: State)
    requires s.pc.Restore? && s.pc.k <= 6 && WOLIF !in s.eir
    requires t == s.(intie := true, pc := Scan(s.pc.sample, s.pc.k + 1), exti := t.exti)
    requires t.exti ==> s.exti || t.Low()
    ensures Descends(s, t)
  {
    hide Descends, State.Low, From;
    assert Rest(t.pc) == Rest(s.pc);
    assert Edges(s.pc) == Edges(t.pc) + 1 && MayReply(t.pc) == MayReply(s.pc);
    if t.Low() { LowIsHot(s, t); }
    ByEdge(s, t);
  }

  lemma LowIsHot(s: State, t: State)
    requires t.eie == s.eie && t.eir == s.eir && t.count == s.count && WOLIF !in s.eir && t.Low()
    ensures Hot(s)
  {
    assert s.Pending() * s.eie != {};
  }

  lemma DescentInTransmission(s: State, x: Step)
    requires Inv(s) && Enabled(s, x) && x.Main? && s.pc.Tx?
    ensures Descends(s, Next(s, x))
  {
    var t := Next(s, x);
    if s.pc.stage == 2 {
      assert t == s.(intie := true, pc := Tx(3, s.pc.back), exti := t.exti);
      hide Inv, Effect, Next, Descends;
      ByEdge(s, t);
    } else {
      assert s.eie + {TXIF} == s.eie;
      Quieter(s, Effect(s, x));
      NextIs(s, x, Effect(s, x));
      DescentInSend(s, t);
    }
  }

  lemma DescentInSend(s: State, t: State)
    requires s.pc.Tx? && s.pc.stage <= 4 && s.pc.stage != 2 && t == Send(s, s.pc.stage, s.pc.back)
    requires TXIF in s.eie && (s.pc.stage == 3 ==> !s.txrts)
    ensures Descends(s, t)
  {
    assert s.eie + {TXIF} == s.eie;
    var stage := s.pc.stage;
    assert t == s.(eir := t.eir, txrts := t.txrts, busy := t.busy, pc := t.pc) && t.eir <= s.eir;
    assert t.txrts == s.txrts || stage == 3;
    SentPlace(stage, s.pc.back, t.pc);
    hide Send, Edges, Place, Rest;
    if stage != 3 { ByPlace(s, t); }
  }

  lemma SentPlace(stage: nat, back: Back, q: Pc)
    requires stage <= 4
    requires q == if stage < 4 then Tx(stage + 1, back)
                  else match back case ToHead => Head case ToInput(v) => Input(v, true)
    ensures var p := Tx(stage, back);
            && Rest(p) == Rest(q) == {} && Edges(q) <= Edges(p) && Place(q) < Place(p)
            && MayReply(p) == (stage <= 3) && MayReply(q) == (stage <= 2)
  {
  }

  // Every action of a quiet run descends.
  lemma Descent(s: State, x: Step)
    requires Inv(s) && Enabled(s, x) && QuietStep(s, x) && WOLIF !in s.eir
    ensures Descends(s, Next(s, x)) && WOLIF !in Next(s, x).eir
  {
    hide Descends, Inv;
    if x.TxEnd? { DescentAtTxEnd(s, x); }
    else if x.Isr? { DescentInIsr(s, x); }
    else {
      match s.pc
      case Head => DescentInLoop(s, x);
      case Tested => DescentInLoop(s, x);
      case Loaded(_) => DescentInLoop(s, x);
      case Stored => DescentAtSample(s, x);
      case Scan(_, _) => DescentInScan(s, x);
      case Masked(_, _) => DescentInHandler(s, x);
      case Restore(_, _) => DescentAtRestore(s, x);
      case Tx(_, _) => DescentInTransmission(s, x);
      case _ => DescentInInput(s, x);
    }
  }

  // Nothing is left to do: no packet counted, no enabled flag raised, no frame under way.
  predicate Drained(s: State) {
    && s.pc.Head? && s.count == 0 && s.eir * s.eie == {} && !s.txrts && !s.busy
    && s.counter == 0 && !s.exti
  }

  // Neither the chip's transmitter nor the service routine nor the main program can act.
  predicate Stuck(s: State) { !s.txrts && !s.exti && !Enabled(s, Main(true)) }

  lemma StuckIsDrained(s: State)
    requires Inv(s) && Stuck(s)
    ensures Drained(s)
  {
    if s.count > 0 || s.eir * s.eie != {} { RaisedIsLow(s); }
    assert TXIF in s.eir ==> TXIF in s.eir * s.eie;
  }

  lemma RaisedIsLow(s: State)
    requires s.intie && PKTIF in s.eie && (s.count > 0 || s.eir * s.eie != {})
    ensures s.Low()
  {
    if s.count > 0 { assert PKTIF in s.Pending() * s.eie; }
  }

  // The state after n actions chosen by f; an action that is not enabled changes nothing.
  ghost function Trace(s: State, f: nat -> Step, n: nat): State
    decreases n
  {
    if n == 0 then s
    else
      var t := Trace(s, f, n - 1);
      if Enabled(t, f(n - 1)) then Next(t, f(n - 1)) else t
  }

  // A quiet schedule: as long as something can act, something does, and nothing else ever.
  ghost predicate QuietSchedule(s: State, f: nat -> Step) { forall n: nat :: QuietAt(Trace(s, f, n), f(n)) }

  predicate QuietAt(t: State, x: Step) { if Stuck(t) then !Enabled(t, x) else Enabled(t, x) && QuietStep(t, x) }

  // Action n is the service routine losing a wake-up.
  ghost predicate LossAt(s: State, f: nat -> Step, n: nat)
  {
    var t := Trace(s, f, n);
    Enabled(t, f(n)) && Loses(t, f(n))
  }

  // The dispatcher drains: whatever the order of interrupts, completions and actions of the
  // main program, a quiet run that loses no wake-up comes to the state in which nothing is
  // left to do.
  lemma Drains(s: State, f: nat -> Step)
    requires Inv(s) && WOLIF !in s.eir && QuietSchedule(s, f) && forall n: nat :: !LossAt(s, f, n)
    ensures exists n: nat :: Drained(Trace(s, f, n))
  {
    assert Trace(s, f, 0) == s;
    DrainsFrom(s, f, 0);
  }

  lemma {:induction false} DrainsFrom(s: State, f: nat -> Step, n: nat)
    requires QuietSchedule(s, f) && forall m: nat :: !LossAt(s, f, m)
    requires Inv(Trace(s, f, n)) && WOLIF !in Trace(s, f, n).eir
    ensures exists m: nat :: Drained(Trace(s, f, m))
    decreases Rank1(Trace(s, f, n)), Rank2(Trace(s, f, n)), Rank3(Trace(s, f, n)), Place(Trace(s, f, n).pc)
  {
    hide Inv, Rank1, Rank2, Rank3, Place, Next, Drained, Stuck, Enabled, Loses, QuietStep;
    var t := Trace(s, f, n);
    RanksBounded(t);
    assert QuietAt(t, f(n)) && !LossAt(s, f, n);
    if Stuck(t) {
      StuckIsDrained(t);
    } else {
      var u := Next(t, f(n));
      assert u == Trace(s, f, n + 1);
      Descent(t, f(n));
      InvKept(t, f(n));
      RanksBounded(u);
      DrainsFrom(s, f, n + 1);
    }
  }

  // ----- what prevents it -----

  // WOLIF has no handler: once raised it stays, and it stays enabled.
  lemma WakeStays(s: State, x: Step)
    requires Enabled(s, x) && WOLIF in s.eir
    ensures WOLIF in Next(s, x).eir
  {
    hide State.Low, Handle, Send;
    WakeUncleared(s, s.pc);
    assert WOLIF in Effect(s, x).eir;
  }

  lemma WakeUncleared(s: State, pc: Pc)
    requires WOLIF in s.eir
    ensures pc.Masked? ==> forall phy :: WOLIF in Handle(s, pc.sample, pc.k, phy).eir
    ensures pc.Tx? ==> WOLIF in Send(s, pc.stage, pc.back).eir
  {
  }

  lemma {:induction false} WakeForever(s: State, f: nat -> Step, n: nat)
    requires Static(s) && WOLIF in s.eir
    ensures Static(Trace(s, f, n)) && WOLIF in Trace(s, f, n).eir
    decreases n
  {
    hide Static, Next, Enabled;
    if n > 0 {
      WakeForever(s, f, n - 1);
      var t := Trace(s, f, n - 1);
      if Enabled(t, f(n - 1)) {
        StaticKept(t, f(n - 1));
        WakeStays(t, f(n - 1));
      }
    }
  }

  // While it is up the program, if not stranded, never rests.
  lemma WakeNeverRests(s: State)
    requires Static(s) && WOLIF in s.eir
    ensures !Drained(s) && (Awake(s) ==> !Stuck(s))
  {
    assert WOLIF in s.eir * s.eie;
    if s.pc.Head? { assert WOLIF in s.Pending() * s.eie; }
  }

  lemma {:induction false} StaticTrace(s: State, f: nat -> Step, n: nat)
    requires Static(s)
    ensures Static(Trace(s, f, n))
    decreases n
  {
    hide Static, Next, Enabled;
    if n > 0 {
      StaticTrace(s, f, n - 1);
      var t := Trace(s, f, n - 1);
      if Enabled(t, f(n - 1)) { StaticKept(t, f(n - 1)); }
    }
  }

  // A stranded program stays so, and was not drained.
  lemma {:induction false} StrandedTrace(s: State, f: nat -> Step, n: nat, m: nat)
    requires Static(s) && n <= m && Stranded(Trace(s, f, n))
    ensures Stranded(Trace(s, f, m))
    decreases m
  {
    hide Static, Stranded, Next, Enabled;
    if n < m {
      StrandedTrace(s, f, n, m - 1);
      StaticTrace(s, f, m - 1);
      var t := Trace(s, f, m - 1);
      if Enabled(t, f(m - 1)) { StrandedStays(t, f(m - 1)); }
    }
  }

  lemma StrandedNotDrained(s: State)
    requires Stranded(s)
    ensures !Drained(s)
  {
  }

  // A drained program stays so.
  lemma {:induction false} DrainedTrace(s: State, f: nat -> Step, n: nat, m: nat)
    requires QuietSchedule(s, f) && n <= m && Drained(Trace(s, f, n))
    ensures Drained(Trace(s, f, m))
    decreases m
  {
    hide Drained, QuietSchedule, Trace;
    if n < m {
      DrainedTrace(s, f, n, m - 1);
      DrainedNext(s, f, m - 1);
    }
  }

  lemma DrainedNext(s: State, f: nat -> Step, n: nat)
    requires QuietSchedule(s, f) && Drained(Trace(s, f, n))
    ensures Trace(s, f, n + 1) == Trace(s, f, n)
  {
    hide Drained, QuietStep, Next, Enabled, Stuck;
    assert QuietAt(Trace(s, f, n), f(n));
    DrainedRests(Trace(s, f, n), f(n));
  }

  lemma DrainedRests(t: State, x: Step)
    requires Drained(t)
    ensures Stuck(t) && !(Enabled(t, x) && Loses(t, x))
  {
  }

  // Exactly when a quiet run drains: WOLIF is down, and no wake-up is lost on the way.
  lemma DrainsExactly(s: State, f: nat -> Step)
    requires Inv(s) && QuietSchedule(s, f)
    ensures (exists n: nat :: Drained(Trace(s, f, n))) <==> WOLIF !in s.eir && forall n: nat :: !LossAt(s, f, n)
  {
    hide Inv, Static, QuietSchedule, Drained, Stranded, Next, Enabled, Loses;
    InvIsStatic(s);
    if n: nat :| Drained(Trace(s, f, n)) {
      if WOLIF in s.eir {
        WakeForever(s, f, n);
        WakeNeverRests(Trace(s, f, n));
      }
      forall m: nat ensures !LossAt(s, f, m) { DrainedLostNothing(s, f, n, m); }
    }
    if WOLIF !in s.eir && forall n: nat :: !LossAt(s, f, n) { Drains(s, f); }
  }

  lemma InvIsStatic(s: State)
    requires Inv(s)
    ensures Static(s)
  {
  }

  lemma DrainedLostNothing(s: State, f: nat -> Step, n: nat, m: nat)
    requires Static(s) && QuietSchedule(s, f) && Drained(Trace(s, f, n))
    ensures !LossAt(s, f, m)
  {
    hide Static, QuietSchedule, Drained, Stranded, Next, Enabled, Loses;
    if m < n {
      if LossAt(s, f, m) {
        LossStrands(Trace(s, f, m), f(m));
        assert Trace(s, f, m + 1) == Next(Trace(s, f, m), f(m));
        StrandedTrace(s, f, m + 1, n);
        StrandedNotDrained(Trace(s, f, n));
      }
    } else {
      DrainedTrace(s, f, n, m);
      DrainedRests(Trace(s, f, m), f(m));
    }
  }
}
