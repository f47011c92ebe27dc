// What a wrap of the interrupt counter costs: when it strands the program, that a stranded
// program never reads EIR again, and that there is a run in which it happens.

module Wakeup {
  import opened Bytes
  import opened Dispatch

  // The pin is low, and neither the counter, the latch nor the pass under way will see to it.
  predicate Stranded(s: State) { s.Low() && !Armed(s) && !Excused(s.pc) }

  // ----- what the counter counts -----

  // Interrupts that strike outside the decrement.
  ghost function Kept(s: State, xs: seq<Step>): nat
    requires Legal(s, xs)
    decreases xs
  {
    if xs == [] then 0 else One(xs[0].Isr? && !s.pc.Loaded?) + Kept(Next(s, xs[0]), xs[1..])
  }

  // Decrements.
  ghost function Taken(s: State, xs: seq<Step>): nat
    requires Legal(s, xs)
    decreases xs
  {
    if xs == [] then 0 else One(xs[0].Main? && s.pc.Loaded?) + Taken(Next(s, xs[0]), xs[1..])
  }

  // The counter, or what is loaded from it.
  function Held(s: State): nat { if s.pc.Loaded? then s.pc.reg else s.counter }

  // Over any run the counter goes up by the interrupts that strike outside the decrement and down
  // by the decrements, modulo 2^32: one that strikes between load and store leaves no trace in it.
  // Every decrement is followed by one reading of EIR.
  lemma {:induction false} CounterExactly(s: State, xs: seq<Step>)
    requires Legal(s, xs) && Held(s) < WRAP
    ensures var t := After(s, xs);
            && Held(t) == (Held(s) + Kept(s, xs) - Taken(s, xs)) % 0x1_0000_0000
            && t.samples + One(t.pc.Stored?) == s.samples + One(s.pc.Stored?) + Taken(s, xs)
    decreases xs
  {
    hide Next, Enabled, Held;
    if xs == [] {
      SmallMod(Held(s));
    } else {
      var t := Next(s, xs[0]);
      HeldStep(s, xs[0]);
      CounterExactly(t, xs[1..]);
      ModAdd(Held(s) + One(xs[0].Isr? && !s.pc.Loaded?) - One(xs[0].Main? && s.pc.Loaded?),
             Kept(t, xs[1..]) - Taken(t, xs[1..]));
    }
  }

  lemma HeldStep(s: State, x: Step)
    requires Enabled(s, x) && Held(s) < WRAP
    ensures var t := Next(s, x);
            && Held(t) == (Held(s) + One(x.Isr? && !s.pc.Loaded?) - One(x.Main? && s.pc.Loaded?)) % WRAP
            && Held(t) < WRAP
            && t.samples + One(t.pc.Stored?) == s.samples + One(s.pc.Stored?) + One(x.Main? && s.pc.Loaded?)
  {
    hide State.Low, Act;
    SmallMod(Held(s));
    if x.Main? { HeldInLoop(s, x.phy); }
  }

  lemma HeldInLoop(s: State, phy: bool)
    requires Held(s) < WRAP
    ensures var t := Act(s, phy);
            && Held(t) == (if s.pc.Loaded? then (Held(s) - 1) % WRAP else Held(s))
            && t.samples + One(t.pc.Stored?) == s.samples + One(s.pc.Stored?) + One(s.pc.Loaded?)
  {
    hide From, Handle, Send, State.Pending;
    OnlyPins(s, s.pc);
    Elsewhere(s, phy);
    Decrement(Held(s));
  }

  lemma Decrement(a: nat)
    requires a < WRAP
    ensures (a - 1) % WRAP == if a == 0 then WRAP - 1 else a - 1
  {
  }

  // Handlers and transmissions neither read EIR nor come to the point before it.
  lemma Elsewhere(s: State, phy: bool)
    ensures s.pc.Masked? ==> var t := Handle(s, s.pc.sample, s.pc.k, phy); t.samples == s.samples && !t.pc.Stored?
    ensures s.pc.Tx? ==> var t := Send(s, s.pc.stage, s.pc.back); t.samples == s.samples && !t.pc.Stored?
  {
  }

  lemma SmallMod(a: nat)
    ensures a < WRAP ==> a % WRAP == a
  {
  }

  lemma ModAdd(a: int, b: int)
    ensures (a % WRAP + b) % WRAP == (a + b) % WRAP
  {
    var q := a / WRAP;
    assert a == q * WRAP + a % WRAP;
    ModShift(a % WRAP + b, q);
  }

  lemma {:induction false} ModShift(a: int, q: int)
    ensures (a + q * WRAP) % WRAP == a % WRAP
    decreases if q < 0 then -q else q
  {
    if q > 0 { ModShift(a, q - 1); assert (a + (q - 1) * WRAP + WRAP) % WRAP == (a + (q - 1) * WRAP) % WRAP; }
    if q < 0 { ModShift(a, q + 1); assert (a + (q + 1) * WRAP - WRAP) % WRAP == (a + (q + 1) * WRAP) % WRAP; }
  }

  // ----- once and for all -----

  lemma StrandedStays(s: State, x: Step)
    requires Static(s) && Stranded(s) && Enabled(s, x)
    ensures Stranded(Next(s, x)) && Next(s, x).samples == s.samples
  {
    if x.Main? || x.Transmit? { StrandedInLoop(s, x); } else { StrandedUnderChip(s, x); }
  }

  // More flags keep the pin low, and a low pin has no falling edge.
  lemma StrandedUnderChip(s: State, x: Step)
    requires Static(s) && Stranded(s) && Enabled(s, x) && !x.Main? && !x.Transmit?
    ensures Stranded(Next(s, x)) && Next(s, x).samples == s.samples
  {
    hide Static, Excused;
    var t := Effect(s, x);
    assert s.Pending() * s.eie <= t.Pending() * t.eie;
  }

  lemma StrandedInLoop(s: State, x: Step)
    requires Static(s) && Stranded(s) && Enabled(s, x) && (x.Main? || x.Transmit?)
    ensures Stranded(Next(s, x)) && Next(s, x).samples == s.samples
  {
    hide Conserved, Handle, From, State.Pending, State.Low;
    var t := Effect(s, x);
    LowNeeds(s);
    NothingToClear(s);
    if s.pc.Scan? { NothingLeft(s.pc.sample, s.pc.k); }
    if s.pc.Restore? { NothingLeft(s.pc.sample, s.pc.k + 1); }
    assert t.eie == s.eie && t.eir == s.eir && t.count == s.count && t.intie == s.intie;
    SamePin(s, t);
    EdgePin(s, t);
  }

  lemma LowNeeds(s: State)
    requires s.Low()
    ensures s.intie
  {
  }

  // A transmission finds TXIF clear and enabled already.
  lemma NothingToClear(s: State)
    requires Static(s)
    ensures s.eie + {TXIF} == s.eie && (s.pc.Tx? && s.pc.stage == 0 ==> s.eir - {TXIF} == s.eir)
  {
  }

  lemma NothingLeft(v: Flags, k: nat)
    ensures From(v, k) == {} ==> k !in v && From(v, k + 1) == {}
    ensures k == PKTIF + 1 && Sampled(v) ==> From(v, k) == {}
  {
    assert From(v, k + 1) <= From(v, k);
    assert k in v ==> k in From(v, k);
  }

  // A stranded program never reads EIR again, whatever happens.
  lemma {:induction false} StrandedForever(s: State, xs: seq<Step>)
    requires Static(s) && Stranded(s) && Legal(s, xs)
    ensures Stranded(After(s, xs)) && After(s, xs).samples == s.samples
    decreases xs
  {
    hide Static, Stranded, Next, Enabled;
    if xs != [] {
      StrandedStays(s, xs[0]);
      StaticKept(s, xs[0]);
      StrandedForever(Next(s, xs[0]), xs[1..]);
    }
  }

  // ----- when -----

  lemma LossStrands(s: State, x: Step)
    requires Loses(s, x) && Enabled(s, x)
    ensures Stranded(Next(s, x))
  {
    hide State.Low, Excused;
    var t := Effect(s, x);
    SamePin(s, t);
    EdgePin(s, t);
    assert s.Edge(t) == t;
  }

  lemma AwakeIsNotStranded(s: State)
    requires Inv(s)
    ensures Static(s) && !Stranded(s)
  {
    hide State.Low, Excused, WellPlaced, Enables, Exclusive, Conserved;
  }

  // Exactly when: a run strands the program if and only if somewhere in it the counter goes
  // round with the pin low and nothing left in the pass to see to it.
  lemma StrandedExactly(s: State, xs: seq<Step>)
    requires Initial(s) && Legal(s, xs)
    ensures Stranded(After(s, xs)) <==> LossIn(s, xs)
  {
    hide Initial, Stranded, LossIn;
    InitialInv(s);
    StrandedFrom(s, xs);
  }

  lemma {:induction false} StrandedFrom(s: State, xs: seq<Step>)
    requires Inv(s) && Legal(s, xs)
    ensures Stranded(After(s, xs)) <==> LossIn(s, xs)
    decreases xs
  {
    hide Inv, Static, Stranded, Next, Enabled, Loses;
    AwakeIsNotStranded(s);
    if xs != [] {
      if Loses(s, xs[0]) {
        LossStrands(s, xs[0]);
        StaticKept(s, xs[0]);
        StrandedForever(Next(s, xs[0]), xs[1..]);
      } else {
        InvKept(s, xs[0]);
        StrandedFrom(Next(s, xs[0]), xs[1..]);
      }
    }
  }

  // Where in the program: at the head, in the stack's input routine, in a transmission, after a
  // packet, and in the rest of a scan that found nothing more. Between the load and the store
  // of the decrement, before EIR is read, before a sampled bit is handled, and with INTIE off
  // the wrap does no harm.
  lemma WrapLosesWakeup(s: State)
    requires Inv(s) && s.exti && s.counter + 1 == WRAP
    ensures Stranded(Next(s, Isr)) <==>
            s.Low() && match s.pc
                       case Head => true
                       case Input(_, _) => true
                       case Tx(_, _) => true
                       case Restore(_, k) => k == PKTIF
                       case Scan(v, k) => From(v, k) == {}
                       case _ => false
  {
    hide State.Low, From, Exclusive, Conserved;
    var t := Effect(s, Isr);
    SamePin(s, t);
    EdgePin(s, t);
    assert s.Edge(t) == t;
    if s.Low() { LowNeeds(s); }
  }

  // ----- that it can happen -----

  // A run in which nothing occurs but reception errors, arrivals, interrupts and the program's
  // own steps.
  ghost predicate Plain(xs: seq<Step>)
  {
    forall i | 0 <= i < |xs| :: xs[i].RxError? || xs[i].Arrive? || xs[i].Isr? || xs[i].Main?
  }

  ghost predicate Reached(s: State, t: State) { exists xs :: Legal(s, xs) && Plain(xs) && After(s, xs) == t }

  // With nothing up but RXERIF and one packet the pin is easy to follow.
  const BOTH: Flags := {RXERIF, PKTIF}

  predicate Tame(s: State) { s.eie == ALL && s.count <= 1 && s.eir <= {RXERIF} }

  predicate Down(s: State) { s.intie && (s.eir != {} || s.count > 0) }

  lemma PinOf(s: State)
    requires Tame(s)
    ensures s.Low() == Down(s)
  {
    assert s.Pending() * s.eie == s.Pending();
    assert s.count > 0 ==> PKTIF in s.Pending();
  }

  lemma ReachedNext(s: State, t: State, x: Step, u: State)
    requires Reached(s, t) && Enabled(t, x) && (x.RxError? || x.Arrive? || x.Isr? || x.Main?)
    requires Tame(t) && Tame(Effect(t, x))
    requires u == Effect(t, x).(exti := Effect(t, x).exti || (!Down(t) && Down(Effect(t, x))))
    ensures Reached(s, u)
  {
    hide State.Low, Enabled, Effect;
    PinOf(t);
    PinOf(Effect(t, x));
    var xs :| Legal(s, xs) && Plain(xs) && After(s, xs) == t;
    RunsOn(s, xs, x);
    assert Plain(xs + [x]) && After(s, xs + [x]) == u;
  }

  // At the head with n wake-ups owed, RXERIF up and a packet counted; an edge latched or not.
  predicate Owed(s: State, n: nat, latched: bool)
  {
    && s.eie == ALL && s.intie && s.eir == {RXERIF} && s.count == 1 && !s.txrts && !s.busy
    && s.exti == latched && s.counter == n && s.pc == Head
  }

  // The first wake-up.
  lemma FirstOwed(s: State)
    requires Initial(s)
    ensures exists t :: Reached(s, t) && Owed(t, 1, false)
  {
    hide Legal, After, State.Low, Reached;
    NoSteps(s);
    var a := s.(eir := {RXERIF}, exti := true);
    assert s.eir + {RXERIF} == {RXERIF};
    ReachedNext(s, s, RxError, a);
    var b := a.(count := 1, accepted := a.accepted + 1);
    ReachedNext(s, a, Arrive, b);
    var c := b.(exti := false, counter := 1);
    ReachedNext(s, b, Isr, c);
  }

  lemma NoSteps(s: State)
    ensures Reached(s, s)
  {
    assert Legal(s, []) && Plain([]) && After(s, []) == s;
  }

  // A pass that serves both pays one wake-up and earns two, as INTIE goes on twice with
  // something up; the second edge is still latched when it ends.
  lemma PassEarns(s: State, b: State, n: nat)
    requires Reached(s, b) && Owed(b, n, false) && 0 < n < WRAP
    ensures exists t :: Reached(s, t) && Owed(t, n, true)
  {
    hide Reached;
    var c := Enter(s, b, n);
    var t := FirstBit(s, c, n);
    SecondBit(s, t, n);
  }

  lemma Enter(s: State, b: State, n: nat) returns (t: State)
    requires Reached(s, b) && Owed(b, n, false) && 0 < n < WRAP
    ensures Reached(s, t) && t == b.(counter := n - 1, samples := b.samples + 1, pc := Scan(BOTH, 0))
  {
    hide Reached;
    var b1 := b.(pc := Tested);
    ReachedNext(s, b, Main(false), b1);
    var b2 := b1.(pc := Loaded(n));
    ReachedNext(s, b1, Main(false), b2);
    var b3 := b2.(counter := n - 1, pc := Stored);
    ReachedNext(s, b2, Main(false), b3);
    t := b3.(samples := b3.samples + 1, pc := Scan(BOTH, 0));
    assert {RXERIF} + {PKTIF} == BOTH;
    ReachedNext(s, b3, Main(false), t);
  }

  predicate Between(s: State, n: nat)
  {
    && s.eie == ALL && s.intie && s.eir == {} && s.count == 1 && !s.txrts && !s.busy
    && !s.exti && s.counter == n && s.pc == Scan(BOTH, 1)
  }

  lemma FirstBit(s: State, b: State, n: nat) returns (t: State)
    requires Reached(s, b) && 0 < n < WRAP
    requires Owed(b.(counter := n, pc := Head), n, false) && b.counter == n - 1 && b.pc == Scan(BOTH, 0)
    ensures Reached(s, t) && Between(t, n)
  {
    hide Reached;
    var b1 := b.(intie := false, pc := Masked(BOTH, 0));
    ReachedNext(s, b, Main(false), b1);
    var b2 := b1.(eir := {}, pc := Restore(BOTH, 0));
    assert {RXERIF} - {RXERIF} == {};
    ReachedNext(s, b1, Main(false), b2);
    var b3 := b2.(intie := true, pc := Scan(BOTH, 1), exti := true);
    ReachedNext(s, b2, Main(false), b3);
    t := b3.(exti := false, counter := n);
    ReachedNext(s, b3, Isr, t);
  }

  lemma SecondBit(s: State, b: State, n: nat)
    requires Reached(s, b) && Between(b, n)
    ensures exists t :: Reached(s, t) && Owed(t, n, true)
  {
    hide Reached;
    var c := Skip(s, b, 6);
    var c4 := ServePacket(s, c);
    var c5 := c4.(eir := {RXERIF});
    assert {} + {RXERIF} == {RXERIF};
    ReachedNext(s, c4, RxError, c5);
    var c6 := c5.(count := 1, accepted := c5.accepted + 1);
    ReachedNext(s, c5, Arrive, c6);
    var c7 := c6.(intie := true, pc := Scan(BOTH, 7), exti := true);
    ReachedNext(s, c6, Main(false), c7);
    var d := Skip(s, c7, 8);
    var e := d.(pc := Head);
    ReachedNext(s, d, Main(false), e);
  }

  lemma ServePacket(s: State, c: State) returns (t: State)
    requires Reached(s, c) && Tame(c) && c.eir == {} && c.count == 1 && c.pc == Scan(BOTH, 6)
    ensures Reached(s, t)
    ensures t == c.(intie := false, received := c.received + 1, count := 0, pc := Restore(BOTH, 6))
  {
    hide Reached;
    var c1 := c.(intie := false, pc := Masked(BOTH, 6));
    ReachedNext(s, c, Main(false), c1);
    var c2 := c1.(received := c1.received + 1, pc := Fetched(BOTH));
    ReachedNext(s, c1, Main(false), c2);
    var c3 := c2.(count := 0, pc := Input(BOTH, false));
    ReachedNext(s, c2, Main(false), c3);
    t := c3.(pc := Restore(BOTH, 6));
    ReachedNext(s, c3, Main(false), t);
  }

  // The scan passes over bits that were not found.
  lemma {:induction false} Skip(s: State, b: State, k: nat) returns (t: State)
    requires Reached(s, b) && b.pc.Scan? && b.pc.sample == BOTH && Tame(b)
    requires (1 <= b.pc.k <= 6 && k == 6) || (7 <= b.pc.k <= 8 && k == 8)
    ensures Reached(s, t) && t == b.(pc := Scan(BOTH, k))
    decreases k - b.pc.k
  {
    hide Reached;
    t := b;
    if b.pc.k < k {
      var c := b.(pc := Scan(BOTH, b.pc.k + 1));
      ReachedNext(s, b, Main(false), c);
      t := Skip(s, c, k);
    }
  }

  // Any debt can be run up.
  lemma {:induction false} Climb(s: State, n: nat)
    requires Initial(s) && 0 < n < WRAP
    ensures exists t :: Reached(s, t) && Owed(t, n, true)
    decreases n
  {
    hide Reached, Initial;
    if n == 1 {
      FirstOwed(s);
    } else {
      Climb(s, n - 1);
      var t :| Reached(s, t) && Owed(t, n - 1, true);
      var u := t.(exti := false, counter := n);
      assert Owed(u, n, false);
      ReachedNext(s, t, Isr, u);
    }
    var b :| Reached(s, b) && Owed(b, n, false);
    PassEarns(s, b, n);
  }

  // There is such a run from start-up in which the service routine, at the head of the loop,
  // finds the counter at its largest value and the pin low; after it the program is stranded.
  lemma WrapWitness(s: State)
    requires Initial(s)
    ensures exists t :: Reached(s, t) && t.pc.Head? && t.exti && t.Low() && t.counter == WRAP - 1
    ensures exists u :: Reached(s, u) && Stranded(u)
  {
    hide Reached, Initial, State.Low;
    Climb(s, WRAP - 1);
    var t :| Reached(s, t) && Owed(t, WRAP - 1, true);
    PinOf(t);
    var u := t.(exti := false, counter := 0);
    ReachedNext(s, t, Isr, u);
    PinOf(u);
  }
}
