// The main program's interrupt handling in its own form: a pass of the loop over EIR's bits,
// the service routine and the busy flag, with the rest of the world acting before each of its
// moves. Every pass is a run of the machine in Dispatch, so what holds of that machine's
// runs holds of the program.

module MainLoop {
  import opened Bytes
  import opened Dispatch

  // At a move the program takes a step of the machine, or finds nothing to do: the counter is 0,
  // or a frame is on its way when it wants to send one.
  datatype Move = Stay | Go(step: Step)

  function StepsOf(m: Move): seq<Step> { if m.Stay? then [] else [m.step] }

  predicate Foreign(x: Step) { !x.Main? && !x.Transmit? }

  // Those of the chip's and the service routine's steps that can happen, one after the other.
  ghost function Possible(s: State, es: seq<Step>): seq<Step>
    decreases es
  {
    if es == [] then []
    else if Foreign(es[0]) && Enabled(s, es[0]) then [es[0]] + Possible(Next(s, es[0]), es[1..])
    else Possible(s, es[1..])
  }

  // What has happened is the program's moves in order and, before move number n, as much of
  // before(n) as can happen there. Nothing is left out and nothing is added.
  ghost predicate Weaves(start: State, before: nat -> seq<Step>, own: seq<Move>, past: seq<Step>)
    decreases own
  {
    if own == [] then past == []
    else
      var n := |own| - 1;
      exists k | 0 <= k <= |past| && Legal(start, past[..k]) ::
        && Weaves(start, before, own[..n], past[..k])
        && past[k..] == Possible(After(start, past[..k]), before(n)) + StepsOf(own[n])
  }

  lemma WeavesOn(start: State, before: nat -> seq<Step>, own: seq<Move>, base: seq<Step>, past: seq<Step>, m: Move)
    requires Legal(start, base) && Weaves(start, before, own, base)
    requires past == base + (Possible(After(start, base), before(|own|)) + StepsOf(m))
    ensures Weaves(start, before, own + [m], past)
  {
    hide Possible, Legal, After;
    var all := own + [m];
    assert all[..|own|] == own && past[..|base|] == base;
    assert past[|base|..] == Possible(After(start, base), before(|own|)) + StepsOf(m);
  }

  // Of a link change, phy says whether the PHIR read gets through.
  predicate Given(own: seq<Move>, phy: nat -> bool)
  {
    forall i | 0 <= i < |own| && own[i].Go? && own[i].step.Main? :: own[i].step.phy == phy(i)
  }

  // The frames accepted for sending.
  function Sent(own: seq<Move>): nat
    decreases own
  {
    if own == [] then 0 else Sent(own[..|own| - 1]) + One(own[|own| - 1] == Go(Transmit))
  }

  lemma SentOn(own: seq<Move>, m: Move)
    ensures Sent(own + [m]) == Sent(own) + One(m == Go(Transmit))
  {
    assert (own + [m])[..|own|] == own;
  }

  // The busy flag, the packets received, the frames accepted for sending and the reads of EIR.
  datatype Tally = Tally(busy: bool, received: nat, sent: nat, samples: nat)

  // A frame is offered for sending: it is accepted if the interface is free, which is then busy.
  function Offered(t: Tally): Tally { t.(busy := true, sent := t.sent + One(!t.busy)) }

  // The handler of bit k, with so many replies to a packet.
  function Handled(t: Tally, k: nat, replies: nat): Tally
  {
    if k == TXIF then t.(busy := false)
    else if k == PKTIF then
      var u := t.(received := t.received + 1);
      if replies > 0 then Offered(u) else u
    else t
  }

  function Scanned(t: Tally, v: Flags, k: nat, replies: nat): Tally
  {
    if k == 0 then t
    else
      var u := Scanned(t, v, k - 1, replies);
      if k - 1 in v then Handled(u, k - 1, replies) else u
  }

  // A completion is handled before the packet.
  lemma ScannedAll(t: Tally, v: Flags, replies: nat)
    ensures var u, answers := Scanned(t, v, 8, replies), PKTIF in v && replies > 0;
            && u.busy == ((t.busy && TXIF !in v) || answers)
            && u.received == t.received + One(PKTIF in v) && u.samples == t.samples
            && u.sent == t.sent + One(answers && !(t.busy && TXIF !in v))
  {
    var u3, u6 := Scanned(t, v, 3, replies), Scanned(t, v, 6, replies);
    assert u3 == t by { assert Scanned(t, v, 1, replies) == t; assert Scanned(t, v, 2, replies) == t; }
    assert Scanned(t, v, 4, replies) == t.(busy := t.busy && TXIF !in v);
    assert Scanned(t, v, 5, replies) == u6 == Scanned(t, v, 4, replies);
    assert Scanned(t, v, 8, replies) == Scanned(t, v, 7, replies);
  }

  class Program {
    var enc28j60intCounter: nat
    var bTxBusy: bool

    // EIE and its INTIE, EIR, EPKTCNT and ECON1.TXRTS; and the pending bit of the EXTI line.
    var eie: Flags
    var intie: bool
    var eir: Flags
    var count: nat
    var txrts: bool
    var exti: bool

    // What the program cannot influence: what the chip and the service routine do before each of
    // its moves, and whether a PHIR read made then gets through.
    const before: nat -> seq<Step>
    const phy: nat -> bool
    var now: nat                     // moves made

    ghost var s: State               // the machine
    ghost var past: seq<Step>        // what it has done
    ghost var own: seq<Move>         // the program's moves
    ghost var base: seq<Step>        // what it had done at the last of them
    ghost const start: State

    ghost predicate Agrees()
      reads this`s, this`enc28j60intCounter, this`bTxBusy, this`eie, this`intie, this`eir, this`count, this`txrts,
            this`exti
    {
      s == State(eie, intie, eir, count, txrts, exti, enc28j60intCounter, bTxBusy,
                 s.accepted, s.received, s.samples, s.pc)
    }

    ghost predicate Ran()
      reads this`s, this`past
    {
      Initial(start) && Legal(start, past) && After(start, past) == s
    }

    ghost predicate Woven()
      reads this`own, this`base, this`now
    {
      now == |own| && Given(own, phy) && Legal(start, base) && Weaves(start, before, own, base)
    }

    ghost predicate Sound()
      reads this
    {
      Agrees() && Ran() && Static(s) && Woven()
    }

    // After a move.
    ghost predicate Valid()
      reads this
    {
      Sound() && past == base
    }

    // The rest of the world has acted, and the program is about to move.
    ghost predicate Waited()
      reads this
    {
      Sound() && past == base + Possible(After(start, base), before(now))
    }

    ghost function Counts(): Tally
      reads this
    {
      Tally(bTxBusy, s.received, Sent(own), s.samples)
    }

    constructor (before: nat -> seq<Step>, phy: nat -> bool)
      ensures Valid() && s.pc.Head? && past == [] && this.before == before && this.phy == phy
    {
      this.before, this.phy, now := before, phy, 0;
      enc28j60intCounter, bTxBusy := 0, false;
      eie, intie, eir, count, txrts, exti := ALL, true, {}, 0, false, false;
      s := State(ALL, true, {}, 0, false, false, 0, false, 0, 0, 0, Head);
      start := s;
      past, own, base := [], [], [];
      new;
      InitialInv(s);
    }

    // The machine follows.
    ghost method Follow(x: Step)
      requires Ran() && Static(s) && Enabled(s, x)
      modifies this`s, this`past
      ensures Ran() && Static(s) && s == Next(old(s), x) && past == old(past) + [x]
    {
      hide Static, Next, Enabled, Initial;
      StaticKept(s, x);
      RunsOn(start, past, x);
      past := past + [x];
      s := Next(s, x);
    }

    // The program has made a move.
    method Moved(ghost m: Move)
      requires Ran() && Woven() && (m.Go? && m.step.Main? ==> m.step.phy == phy(now))
      requires past == base + (Possible(After(start, base), before(now)) + StepsOf(m))
      modifies this`own, this`base, this`now
      ensures Woven() && past == base && own == old(own) + [m]
      ensures Sent(own) == Sent(old(own)) + One(m == Go(Transmit))
    {
      hide Legal, After, Possible, Weaves, Sent, Initial;
      WeavesOn(start, before, own, base, past, m);
      SentOn(own, m);
      own, base, now := own + [m], past, now + 1;
    }

    // It finds nothing to do.
    method Stays()
      requires Waited()
      modifies this`own, this`base, this`now
      ensures Valid() && Counts() == old(Counts()) && old(own) <= own
    {
      hide Static, Initial, Legal, After, Possible, Weaves, Given, Sent;
      assert StepsOf(Stay) == [];
      Moved(Stay);
    }

    predicate PinLow()
      reads this`eie, this`intie, this`eir, this`count
    {
      intie && (if count > 0 then eir + {PKTIF} else eir) * eie != {}
    }

    // The chip's registers change; a falling edge of the pin is latched.
    method Registers(eie': Flags, intie': bool, eir': Flags, count': nat)
      modifies this`eie, this`intie, this`eir, this`count, this`exti
      ensures eie == eie' && intie == intie' && eir == eir' && count == count'
      ensures exti == (old(exti) || (!old(PinLow()) && PinLow()))
    {
      var low := PinLow();
      eie, intie, eir, count := eie', intie', eir', count';
      exti := exti || (!low && PinLow());
    }

    // The chip and the service routine act. What cannot happen is passed over.
    method Elsewhere()
      requires Valid()
      modifies this`s, this`past, this`enc28j60intCounter, this`eie, this`intie, this`eir, this`count, this`txrts,
               this`exti
      ensures Waited() && s.pc == old(s.pc) && Counts() == old(Counts()) && old(past) <= past
    {
      hide Static, Initial, Legal, After, Next, Program.PinLow, Program.Woven, Enabled;
      var es := before(now);
      assert es[0..] == es;
      for i := 0 to |es|
        invariant Sound() && s.pc == old(s.pc) && Counts() == old(Counts()) && old(past) <= past
        invariant past + Possible(s, es[i..]) == base + Possible(After(start, base), es)
      {
        assert es[i..][0] == es[i] && es[i..][1..] == es[i + 1..];
        OneEvent(es[i]);
      }
      assert es[|es|..] == [];
    }

    method OneEvent(x: Step)
      requires Sound()
      modifies this`s, this`past, this`enc28j60intCounter, this`eie, this`intie, this`eir, this`count, this`txrts,
               this`exti
      ensures Sound() && s.pc == old(s.pc) && Counts() == old(Counts())
      ensures if Foreign(x) && Enabled(old(s), x) then s == Next(old(s), x) && past == old(past) + [x]
              else s == old(s) && past == old(past)
    {
      hide Static, Initial, Legal, After, Next, Program.PinLow, Program.Woven;
      match x {
        case Arrive => if count < 255 { Occur(x, eir, count + 1, txrts); }
        case RxError => Occur(x, eir + {RXERIF}, count, txrts);
        case Wake => Occur(x, eir + {WOLIF}, count, txrts);
        case Link => Occur(x, eir + {LINKIF}, count, txrts);
        case Dma => Occur(x, eir + {DMAIF}, count, txrts);
        case TxEnd(failed) =>
          if txrts { Occur(x, eir + if failed then {TXIF, TXERIF} else {TXIF}, count, false); }
        case Isr => if exti { Strike(); }
        case _ =>
      }
    }

    // An event in the chip.
    method Occur(x: Step, eir': Flags, count': nat, txrts': bool)
      requires Sound() && Enabled(s, x) && Foreign(x) && !x.Isr?
      requires eir' == Effect(s, x).eir && count' == Effect(s, x).count && txrts' == Effect(s, x).txrts
      modifies this`s, this`past, this`eie, this`intie, this`eir, this`count, this`txrts, this`exti
      ensures Sound() && s.pc == old(s.pc) && Counts() == old(Counts())
      ensures s == Next(old(s), x) && past == old(past) + [x]
    {
      hide Static, Initial, Legal, After, Program.Woven;
      Follow(x);
      txrts := txrts';
      Registers(eie, intie, eir', count');
    }

    method Strike()
      requires Sound() && exti
      modifies this`s, this`past, this`exti, this`enc28j60intCounter
      ensures Sound() && s.pc == old(s.pc) && Counts() == old(Counts())
      ensures s == Next(old(s), Isr) && past == old(past) + [Isr]
    {
      hide Static, Initial, Legal, After, Next, Program.PinLow, Program.Woven;
      Struck(s);
      Follow(Isr);
      Callback();
    }

    // HAL_GPIO_EXTI_Callback
    method Callback()
      modifies this`exti, this`enc28j60intCounter
      ensures !exti && enc28j60intCounter == (old(enc28j60intCounter) + 1) % WRAP
    {
      exti := false;
      enc28j60intCounter := (enc28j60intCounter + 1) % WRAP;
    }

    // One step of the program itself that writes EIE or EIR, counts a packet down, or writes
    // nothing in the chip.
    method Write(eie': Flags, intie': bool, eir': Flags, count': nat)
      requires Waited() && !s.pc.Head? && !s.pc.Loaded? && !s.pc.Released? && !(s.pc.Tx? && s.pc.stage >= 3)
      requires var t := Act(s, phy(now)); eie' == t.eie && intie' == t.intie && eir' == t.eir && count' == t.count
      modifies this
      ensures Valid() && s.pc == Act(old(s), phy(old(now))).pc && old(own) <= own && old(past) < past
      ensures var t := Act(old(s), phy(old(now)));
              Counts() == old(Counts()).(received := t.received, samples := t.samples)
    {
      hide Static, Program.Woven, Possible, Legal, After, Initial, Act, Program.PinLow, Program.Agrees, Sent;
      ghost var x := Main(phy(now));
      Change(x, eie', intie', eir', count');
      Moved(Go(x));
    }

    method Change(ghost x: Step, eie': Flags, intie': bool, eir': Flags, count': nat)
      requires Agrees() && Ran() && Static(s) && x.Main?
      requires !s.pc.Head? && !s.pc.Loaded? && !s.pc.Released? && !(s.pc.Tx? && s.pc.stage >= 3)
      requires var t := Act(s, x.phy); eie' == t.eie && intie' == t.intie && eir' == t.eir && count' == t.count
      modifies this`s, this`past, this`eie, this`intie, this`eir, this`count, this`exti
      ensures Agrees() && Ran() && Static(s) && past == old(past) + [x]
      ensures var t := Act(old(s), x.phy);
              s.pc == t.pc && s.received == t.received && s.samples == t.samples
    {
      hide Static, Program.Ran;
      OnlyChip(s, x.phy);
      hide Act;
      Follow(x);
      Registers(eie', intie', eir', count');
    }

    // A pass of the loop: the timers and the connection offer so many frames, then one wake-up is
    // taken from the counter and every bit found in EIR handled in ascending order, with so many
    // replies offered to a packet; v is what was found.
    method Pass(sends: nat, replies: nat) returns (ghost v: Flags)
      requires Valid() && s.pc.Head?
      modifies this
      ensures Valid() && s.pc.Head? && old(own) <= own && old(past) <= past
      ensures if s.samples == old(s).samples then v == {} && enc28j60intCounter == 0
              else s.samples == old(s).samples + 1 && FoundAfter(|old(past)|, v)
      ensures PinLow() ==> enc28j60intCounter > 0 || exti || LossIn(start, past)
      ensures bTxBusy <==> txrts || TXIF in eir
      ensures s.accepted == s.received + count
      ensures s.received == old(s).received + One(PKTIF in v)
      ensures var taken, answers := old(bTxBusy) || sends > 0, PKTIF in v && replies > 0;
              && bTxBusy == ((taken && TXIF !in v) || answers)
              && Sent(own) == Sent(old(own)) + One(sends > 0 && !old(bTxBusy)) + One(answers && !(taken && TXIF !in v))
    {
      hide Static, Program.PinLow, Program.Ran, Program.Woven, Act, Sent, Scanned, Possible, After, Legal;
      for i := 0 to sends
        invariant Valid() && s.pc.Head? && old(own) <= own && old(past) <= past
        invariant Counts() == if i == 0 then old(Counts()) else Offered(old(Counts()))
      {
        Translate();
      }
      v := {};
      ghost var t := Counts();
      Elsewhere();
      if enc28j60intCounter > 0 {
        Take();
        var u8Value := Sample();
        v := u8Value;
        ghost var found := past;
        AtSample(v);
        ScanBits(u8Value, replies);
        StillFound(found, v);
        ScannedAll(t.(samples := t.samples + 1), v, replies);
      } else {
        Stays();
      }
      AtHead(s);
      SamePins();
      if PinLow() { WokenOrLost(); }
    }

    // Somewhere after that many steps the machine stood with this sample.
    ghost predicate FoundAfter(n: nat, v: Flags)
      reads this
    {
      exists k :: n < k <= |past| && FoundAt(k, v)
    }

    ghost predicate FoundAt(k: nat, v: Flags)
      requires k <= |past|
      reads this
    {
      Legal(start, past[..k]) && After(start, past[..k]).pc == Scan(v, 0)
    }

    lemma AtSample(v: Flags)
      requires Ran() && s.pc == Scan(v, 0)
      ensures Legal(start, past) && After(start, past).pc == Scan(v, 0)
    {
    }

    lemma StillFound(found: seq<Step>, v: Flags)
      requires found <= past && Legal(start, found) && After(start, found).pc == Scan(v, 0)
      ensures FoundAt(|found|, v)
    {
      assert past[..|found|] == found;
    }

    // Every bit of the sample in ascending order.
    method ScanBits(v: Flags, replies: nat)
      requires Valid() && s.pc == Scan(v, 0)
      modifies this
      ensures Valid() && s.pc.Head? && old(own) <= own && old(past) <= past
      ensures Counts() == Scanned(old(Counts()), v, 8, replies)
    {
      hide Static, Program.PinLow, Program.Ran, Program.Woven, Act, Possible, Sent, Handled;
      for cnt: nat := 0 to 8
        invariant Valid() && s.pc == Scan(v, cnt) && old(own) <= own && old(past) <= past
        invariant Counts() == Scanned(old(Counts()), v, cnt, replies)
      {
        if cnt in v {
          Mask(v, cnt);
          Serve(v, cnt, replies);
        } else {
          Skip(v, cnt);
        }
      }
      Finish();
    }

    method Mask(v: Flags, cnt: nat)
      requires Valid() && s.pc == Scan(v, cnt) && cnt < 8 && cnt in v
      modifies this
      ensures Valid() && s.pc == Masked(v, cnt) && old(own) <= own && old(past) <= past
      ensures Counts() == old(Counts())
    {
      hide Static, Program.PinLow, Program.Ran, Program.Woven, Possible, Sent;
      Elsewhere();
      Write(eie, false, eir, count);
    }

    method Skip(v: Flags, cnt: nat)
      requires Valid() && s.pc == Scan(v, cnt) && cnt < 8 && cnt !in v
      modifies this
      ensures Valid() && s.pc == Scan(v, cnt + 1) && old(own) <= own && old(past) <= past
      ensures Counts() == old(Counts())
    {
      hide Static, Program.PinLow, Program.Ran, Program.Woven, Possible, Sent;
      Elsewhere();
      Write(eie, intie, eir, count);
    }

    method Finish()
      requires Valid() && s.pc.Scan? && s.pc.k == 8
      modifies this
      ensures Valid() && s.pc.Head? && old(own) <= own && old(past) <= past
      ensures Counts() == old(Counts())
    {
      hide Static, Program.PinLow, Program.Ran, Program.Woven, Possible, Sent;
      Elsewhere();
      Write(eie, intie, eir, count);
    }

    lemma WokenOrLost()
      requires Ran() && s.pc.Head? && s.Low()
      ensures s.counter > 0 || s.exti || LossIn(start, past)
    {
      hide State.Low, LossIn, Initial;
      if !LossIn(start, past) { NoLostWakeup(start, past); }
    }

    lemma SamePins()
      requires Agrees()
      ensures PinLow() == s.Low()
    {
    }

    // The switch over the bits, with INTIE off before it and on again after it.
    method Serve(v: Flags, cnt: nat, replies: nat)
      requires Valid() && s.pc == Masked(v, cnt) && cnt in v
      modifies this
      ensures Valid() && s.pc == Scan(v, cnt + 1) && old(own) <= own && old(past) <= past
      ensures Counts() == Handled(old(Counts()), cnt, replies)
    {
      hide Static, Program.PinLow, Act, Program.Ran, Program.Agrees, Program.Woven, Possible, Sent;
      match cnt {
        case 3 => ServeTransmit(v);
        case 4 => ServeLink(v);
        case 6 => ServePacket(v, replies);
        case _ => ServePlain(v, cnt);
      }
      Reopen(v, cnt);
    }

    method Reopen(v: Flags, cnt: nat)
      requires Valid() && s.pc == Restore(v, cnt)
      modifies this
      ensures Valid() && s.pc == Scan(v, cnt + 1) && old(own) <= own && old(past) <= past
      ensures Counts() == old(Counts())
    {
      hide Static, Program.PinLow, Program.Ran, Program.Woven, Possible, Sent;
      Elsewhere();
      Write(eie, true, eir, count);
    }

    // Errors, DMA, and wake-on-LAN, which is not cleared.
    method ServePlain(v: Flags, cnt: nat)
      requires Valid() && s.pc == Masked(v, cnt) && cnt != TXIF && cnt != LINKIF && cnt != PKTIF
      modifies this
      ensures Valid() && s.pc == Restore(v, cnt) && old(own) <= own && old(past) <= past
      ensures Counts() == old(Counts())
    {
      hide Static, Program.PinLow, Program.Ran, Program.Woven, Possible, Sent;
      Elsewhere();
      Write(eie, intie, if cnt == WOLIF then eir else eir - {cnt}, count);
    }

    method ServeTransmit(v: Flags)
      requires Valid() && s.pc == Masked(v, TXIF)
      modifies this
      ensures Valid() && s.pc == Restore(v, TXIF) && old(own) <= own && old(past) <= past
      ensures Counts() == old(Counts()).(busy := false)
    {
      hide Static, Program.PinLow, Program.Ran, Program.Woven, Possible, Sent;
      Elsewhere();
      Write(eie, intie, eir - {TXIF}, count);
      Free();
    }

    method ServeLink(v: Flags)
      requires Valid() && s.pc == Masked(v, LINKIF)
      modifies this
      ensures Valid() && s.pc == Restore(v, LINKIF) && old(own) <= own && old(past) <= past
      ensures Counts() == old(Counts())
    {
      hide Static, Program.PinLow, Program.Ran, Program.Woven, Possible, Sent, Act;
      ReadPhir(v);
      DisableLink(v);
    }

    method ReadPhir(v: Flags)
      requires Valid() && s.pc == Masked(v, LINKIF)
      modifies this
      ensures Valid() && s.pc == LinkRead(v) && old(own) <= own && old(past) <= past
      ensures Counts() == old(Counts())
    {
      hide Static, Program.PinLow, Program.Ran, Program.Woven, Possible, Sent, Send;
      Elsewhere();
      Write(eie, intie, if phy(now) then eir - {LINKIF} else eir, count);
    }

    method DisableLink(v: Flags)
      requires Valid() && s.pc == LinkRead(v)
      modifies this
      ensures Valid() && s.pc == Restore(v, LINKIF) && old(own) <= own && old(past) <= past
      ensures Counts() == old(Counts())
    {
      hide Static, Program.PinLow, Program.Ran, Program.Woven, Possible, Sent, Send, Handle;
      Elsewhere();
      Write(eie - {LINKIF}, intie, eir, count);
    }

    // The packet is read from the ring and then counted down.
    method FetchPacket(v: Flags)
      requires Valid() && s.pc == Masked(v, PKTIF)
      modifies this
      ensures Valid() && s.pc == Input(v, false) && old(own) <= own && old(past) <= past
      ensures Counts() == old(Counts()).(received := old(s).received + 1)
    {
      hide Static, Program.PinLow, Program.Ran, Program.Woven, Possible, Sent, Act;
      Fetch(v);
      CountDown(v);
    }

    method Fetch(v: Flags)
      requires Valid() && s.pc == Masked(v, PKTIF)
      modifies this
      ensures Valid() && s.pc == Fetched(v) && old(own) <= own && old(past) <= past
      ensures Counts() == old(Counts()).(received := old(s).received + 1)
    {
      hide Static, Program.PinLow, Program.Ran, Program.Woven, Possible, Sent, Send;
      Elsewhere();
      Write(eie, intie, eir, count);
    }

    method CountDown(v: Flags)
      requires Valid() && s.pc == Fetched(v)
      modifies this
      ensures Valid() && s.pc == Input(v, false) && old(own) <= own && old(past) <= past
      ensures Counts() == old(Counts())
    {
      hide Static, Program.PinLow, Program.Ran, Program.Woven, Possible, Sent, Send, Handle;
      Elsewhere();
      Write(eie, intie, eir, if count > 0 then count - 1 else 0);
    }

    method ServePacket(v: Flags, replies: nat)
      requires Valid() && s.pc == Masked(v, PKTIF)
      modifies this
      ensures Valid() && s.pc == Restore(v, PKTIF) && old(own) <= own && old(past) <= past
      ensures Counts() == Handled(old(Counts()), PKTIF, replies)
    {
      hide Static, Program.PinLow, Program.Ran, Program.Woven, Possible, Sent, Act;
      FetchPacket(v);
      ghost var t := Counts();
      for i := 0 to replies
        invariant Valid() && s.pc.Input? && s.pc.sample == v && old(own) <= own && old(past) <= past
        invariant Counts() == if i == 0 then t else Offered(t)
      {
        Translate();
      }
      LeaveInput(v);
    }

    method LeaveInput(v: Flags)
      requires Valid() && s.pc.Input? && s.pc.sample == v
      modifies this
      ensures Valid() && s.pc == Restore(v, PKTIF) && old(own) <= own && old(past) <= past
      ensures Counts() == old(Counts())
    {
      hide Static, Program.PinLow, Program.Ran, Program.Woven, Possible, Sent, Send;
      Elsewhere();
      Write(eie, intie, eir, count);
    }

    // bTxBusy = false
    method Free()
      requires Valid() && s.pc.Released?
      modifies this
      ensures Valid() && s.pc == Restore(old(s).pc.sample, TXIF) && old(own) <= own && old(past) <= past
      ensures Counts() == old(Counts()).(busy := false)
    {
      hide Static, Program.Ran, Program.Woven, Possible, Sent, Legal, After, Next, Program.PinLow;
      Elsewhere();
      ghost var x := Main(phy(now));
      Inward(s, x);
      Follow(x);
      bTxBusy := false;
      Moved(Go(x));
    }

    // enc28j60_translate, from the clearing of TXIF on.
    method Translate()
      requires Valid() && (s.pc.Head? || s.pc.Input?)
      modifies this
      ensures Valid() && old(own) <= own && old(past) <= past && Counts() == Offered(old(Counts()))
      ensures if old(s).pc.Head? then s.pc.Head? else s.pc.Input? && s.pc.sample == old(s).pc.sample
    {
      hide Static, Program.PinLow, Program.Ran, Program.Agrees, Program.Woven, Possible, Sent;
      Elsewhere();
      Busy();
      if bTxBusy { Stays(); return; }
      Accept();
      Prepare();
      Request();
      Occupy();
    }

    lemma Busy()
      requires Agrees()
      ensures bTxBusy == s.busy
    {
    }

    // TXIF is cleared; TXIE and INTIE are set.
    method Prepare()
      requires Valid() && s.pc.Tx? && s.pc.stage == 0
      modifies this
      ensures Valid() && s.pc == Tx(3, old(s).pc.back) && old(own) <= own && old(past) <= past
      ensures Counts() == old(Counts())
    {
      hide Static, Program.Ran, Program.Agrees, Program.Woven, Possible, Sent;
      Acknowledge();
      EnableTransmit();
      EnableAll();
    }

    method Acknowledge()
      requires Valid() && s.pc.Tx? && s.pc.stage == 0
      modifies this
      ensures Valid() && s.pc == Tx(1, old(s).pc.back) && old(own) <= own && old(past) <= past
      ensures Counts() == old(Counts())
    {
      hide Static, Program.PinLow, Program.Ran, Program.Woven, Possible, Sent, Handle;
      Elsewhere();
      Write(eie, intie, eir - {TXIF}, count);
    }

    method EnableTransmit()
      requires Valid() && s.pc.Tx? && s.pc.stage == 1
      modifies this
      ensures Valid() && s.pc == Tx(2, old(s).pc.back) && old(own) <= own && old(past) <= past
      ensures Counts() == old(Counts())
    {
      hide Static, Program.PinLow, Program.Ran, Program.Woven, Possible, Sent, Handle;
      Elsewhere();
      Write(eie + {TXIF}, intie, eir, count);
    }

    method EnableAll()
      requires Valid() && s.pc.Tx? && s.pc.stage == 2
      modifies this
      ensures Valid() && s.pc == Tx(3, old(s).pc.back) && old(own) <= own && old(past) <= past
      ensures Counts() == old(Counts())
    {
      hide Static, Program.PinLow, Program.Ran, Program.Woven, Possible, Sent, Handle;
      Elsewhere();
      Write(eie, true, eir, count);
    }

    method Accept()
      requires Waited() && (s.pc.Head? || s.pc.Input?) && !bTxBusy
      modifies this`s, this`past, this`own, this`base, this`now
      ensures Valid() && old(own) <= own && old(past) <= past
      ensures Counts() == old(Counts()).(sent := old(Counts()).sent + 1)
      ensures s.pc == Tx(0, if old(s).pc.Head? then ToHead else ToInput(old(s).pc.sample))
    {
      hide Static, Program.Ran, Program.Woven, Possible, Sent, Legal, After, Next, Program.PinLow;
      Inward(s, Transmit);
      Follow(Transmit);
      Moved(Go(Transmit));
    }

    // ECON1.TXRTS = 1
    method Request()
      requires Valid() && s.pc.Tx? && s.pc.stage == 3
      modifies this
      ensures Valid() && s.pc == Tx(4, old(s).pc.back) && old(own) <= own && old(past) <= past
      ensures Counts() == old(Counts())
    {
      hide Static, Program.Ran, Program.Woven, Possible, Sent, Legal, After, Next, Program.PinLow;
      Elsewhere();
      ghost var x := Main(phy(now));
      Inward(s, x);
      Follow(x);
      txrts := true;
      Moved(Go(x));
    }

    // bTxBusy = true
    method Occupy()
      requires Valid() && s.pc.Tx? && s.pc.stage == 4
      modifies this
      ensures Valid() && old(own) <= own && old(past) <= past && Counts() == old(Counts()).(busy := true)
      ensures s.pc == match old(s).pc.back case ToHead => Head case ToInput(v) => Input(v, true)
    {
      hide Static, Program.Ran, Program.Woven, Possible, Sent, Legal, After, Next, Program.PinLow;
      Elsewhere();
      ghost var x := Main(phy(now));
      Inward(s, x);
      Follow(x);
      bTxBusy := true;
      Moved(Go(x));
    }

    // enc28j60intCounter--, once it is found positive; the service routine may interrupt it.
    method Take()
      requires Waited() && s.pc.Head? && enc28j60intCounter > 0
      modifies this
      ensures Valid() && s.pc.Stored? && old(own) <= own && old(past) <= past && Counts() == old(Counts())
    {
      hide Static, Program.Ran, Program.Agrees, Program.Woven, Possible, Sent;
      Enter();
      Elsewhere();
      var register := Load();
      Elsewhere();
      Store(register);
    }

    method Enter()
      requires Waited() && s.pc.Head? && enc28j60intCounter > 0
      modifies this`s, this`past, this`own, this`base, this`now
      ensures Valid() && s.pc.Tested? && old(own) <= own && old(past) <= past && Counts() == old(Counts())
    {
      hide Static, Program.Ran, Program.Woven, Possible, Sent, Legal, After, Next, Program.PinLow;
      ghost var x := Main(phy(now));
      Inward(s, x);
      Follow(x);
      Moved(Go(x));
    }

    method Load() returns (register: nat)
      requires Waited() && s.pc.Tested?
      modifies this`s, this`past, this`own, this`base, this`now
      ensures Valid() && s.pc == Loaded(register) && old(own) <= own && old(past) <= past && Counts() == old(Counts())
    {
      hide Static, Program.Ran, Program.Woven, Possible, Sent, Legal, After, Next, Program.PinLow;
      register := enc28j60intCounter;
      ghost var x := Main(phy(now));
      Inward(s, x);
      Follow(x);
      Moved(Go(x));
    }

    method Store(register: nat)
      requires Waited() && s.pc == Loaded(register)
      modifies this
      ensures Valid() && s.pc.Stored? && old(own) <= own && old(past) <= past && Counts() == old(Counts())
    {
      hide Static, Program.Ran, Program.Woven, Possible, Sent, Legal, After, Next, Program.PinLow;
      ghost var x := Main(phy(now));
      Inward(s, x);
      Follow(x);
      enc28j60intCounter := if register == 0 then WRAP - 1 else register - 1;
      Moved(Go(x));
    }

    method Sample() returns (u8Value: Flags)
      requires Valid() && s.pc.Stored?
      modifies this
      ensures Valid() && s.pc == Scan(u8Value, 0) && old(own) <= own && old(past) < past
      ensures Counts() == old(Counts()).(samples := old(s).samples + 1)
    {
      hide Static, Initial, Legal, After, Handle, Send, Program.Woven, Possible, Sent;
      Elsewhere();
      u8Value := if count > 0 then eir + {PKTIF} else eir;
      Write(eie, intie, eir, count);
    }
  }

  // The steps that Write makes.
  lemma OnlyChip(s: State, phy: bool)
    requires !s.pc.Head? && !s.pc.Loaded? && !s.pc.Released? && !(s.pc.Tx? && s.pc.stage >= 3)
    ensures var t := Act(s, phy);
            t == s.(eie := t.eie, intie := t.intie, eir := t.eir, count := t.count,
                    received := t.received, samples := t.samples, pc := t.pc)
  {
    hide Handle, Send;
    if s.pc.Masked? { HandleOnly(s, s.pc.sample, s.pc.k, phy); }
    if s.pc.Tx? { SendOnly(s, s.pc.stage, s.pc.back); }
  }

  lemma HandleOnly(s: State, v: Flags, k: nat, phy: bool)
    ensures var t := Handle(s, v, k, phy); t == s.(eir := t.eir, received := t.received, pc := t.pc)
  {
  }

  lemma SendOnly(s: State, stage: nat, back: Back)
    requires stage <= 2
    ensures var t := Send(s, stage, back); t == s.(eie := t.eie, intie := t.intie, eir := t.eir, pc := t.pc)
  {
  }

  // The program's steps that stay away from flags and enables.
  lemma Inward(s: State, x: Step)
    requires Enabled(s, x) && (x.Main? || x.Transmit?)
    requires x.Main? ==> s.pc.Head? || s.pc.Tested? || s.pc.Loaded? || s.pc.Released? || (s.pc.Tx? && s.pc.stage >= 3)
    ensures Next(s, x) == Effect(s, x)
  {
    SamePin(s, Effect(s, x));
    hide State.Low;
  }

  lemma AtHead(s: State)
    requires Static(s) && s.pc.Head?
    ensures s.busy == (s.txrts || TXIF in s.eir) && s.accepted == s.received + s.count
  {
    hide State.Low;
  }

  // The service routine leaves the pin alone.
  lemma Struck(s: State)
    requires s.exti
    ensures Next(s, Isr) == s.(exti := false, counter := (s.counter + 1) % WRAP)
  {
    SamePin(s, Effect(s, Isr));
    hide State.Low;
  }
}
