// The network interface of the main program: the link output routine with its busy flag, the
// transmit-interrupt and packet handlers, and runs in which all of them and the network side
// take turns in any order.

module Netif {
  import opened Bytes
  import opened Ring
  import opened Registers
  import opened Enc28j60
  import opened BankCache
  import opened Driver
  import opened Reception
  import opened Transmission
  import opened FlagView
  import opened ChipRuns
  import D = Dispatch

  datatype Err = Ok | Buf | InProgress

  // The payloads of a pbuf chain one after the other.
  function Flatten(chain: seq<seq<Byte>>): seq<Byte>
    decreases chain
  {
    if chain == [] then [] else chain[0] + Flatten(chain[1..])
  }

  lemma {:induction false} FlattenSplit(chain: seq<seq<Byte>>, k: nat)
    requires k < |chain|
    ensures Flatten(chain[..k + 1]) == Flatten(chain[..k]) + chain[k]
    ensures |Flatten(chain[..k + 1])| <= |Flatten(chain)|
    decreases k
  {
    FlattenAppend(chain[..k], chain[k..]);
    assert chain[..k] + chain[k..] == chain;
    FlattenAppend(chain[..k], [chain[k]]);
    assert chain[..k + 1] == chain[..k] + [chain[k]];
    FlattenOne(chain[k]);
    assert chain[k..][0] == chain[k];
  }

  lemma FlattenOne(q: seq<Byte>)
    ensures Flatten([q]) == q
  {
    var tail: seq<seq<Byte>> := [q][1..];
    assert tail == [] && Flatten([q]) == q + Flatten(tail);
  }

  lemma {:induction false} FlattenAppend(a: seq<seq<Byte>>, b: seq<seq<Byte>>)
    ensures Flatten(a + b) == Flatten(a) + Flatten(b)
    decreases a
  {
    if a == [] {
      assert a + b == b;
    } else {
      assert (a + b)[1..] == a[1..] + b;
      FlattenAppend(a[1..], b);
    }
  }

  datatype Job =
    | Network(es: seq<Event>)
    | Packet(wire: nat -> Pause, alloc: bool)
    | Output(chain: seq<seq<Byte>>, totLen: Word, wire: nat -> Pause)
    | TxInterrupt(w: Pause)
    | LinkInterrupt(es: seq<Event>, w: Pause)
    | OtherInterrupt(k: nat, w: Pause)
    | Mask(w: Pause)
    | Unmask(w: Pause)

  // What one bit of the dispatcher's scan meets: the network side at its points, whether a
  // buffer can be had for a packet, and what the stack sends in reply.
  datatype Reply = Reply(es: seq<Event>, chain: seq<seq<Byte>>, totLen: Word, wire: nat -> Pause)

  datatype Turn = Turn(mask: Pause, es: seq<Event>, w: Pause, unmask: Pause, wire: nat -> Pause, alloc: bool,
                       replies: seq<Reply>)

  // A chain the program has memory for, inside the transmit buffer or behind it, and the chip room.
  predicate Sendable(chain: seq<seq<Byte>>, memory: nat)
  {
    |Flatten(chain)| <= SEND_LIMIT && TX_DATA + |Flatten(chain)| <= memory
  }

  predicate RepliesFit(t: Turn, memory: nat)
  {
    forall i | 0 <= i < |t.replies| :: Sendable(t.replies[i].chain, memory)
  }

  // The replies that are accepted for sending, and what the network does meanwhile: a reply goes out
  // unless a frame is still on its way or its lengths disagree.
  function Accepted(rs: seq<Reply>, busy: bool): (q: seq<seq<Byte>>)
    ensures |q| <= if busy then 0 else 1
    decreases rs
  {
    if rs == [] then []
    else
      var q, r := Accepted(rs[..|rs| - 1], busy), rs[|rs| - 1];
      if GoesOut(r, busy || q != []) then q + [Flatten(r.chain)] else q
  }

  // The stack replies only if it hears of the packet: it fits, and a buffer can be had.
  function Heard(t: Turn, len: nat): seq<Reply> { if len <= BUFFER_SIZE && t.alloc then t.replies else [] }

  lemma HeardIfDelivered(t: Turn, f: Frame)
    ensures var len := |f.payload|;
            && (SafeLength(len) ==> Heard(t, len) == if OutcomeOf(f, t.alloc).Delivered? then t.replies else [])
            && (!SafeLength(len) ==> Heard(t, len) == [])
  {
  }

  predicate GoesOut(r: Reply, busy: bool) { !busy && |Flatten(r.chain)| == r.totLen }

  function ReplyEvents(rs: seq<Reply>, busy: bool): seq<Event>
    decreases rs
  {
    if rs == [] then []
    else
      var init, r := rs[..|rs| - 1], rs[|rs| - 1];
      ReplyEvents(init, busy) + (r.es + if GoesOut(r, busy || Accepted(init, busy) != [])
                                        then Played(r.wire, 0, SendPoints(|Flatten(r.chain)|)) else [])
  }

  // What the network does while bit cnt is handled; len is the length of the oldest frame.
  function ServeEvents(cnt: nat, t: Turn, len: nat, busy: bool): seq<Event>
  {
    if cnt == 2 then []
    else if cnt == 4 then t.es + Events(t.w)
    else if cnt == 6 then
      Played(t.wire, 0, HandlePoints(len)) + ReplyEvents(Heard(t, len), busy)
    else Events(t.w)
  }

  function TurnEvents(cnt: nat, t: Turn, len: nat, busy: bool): seq<Event>
  {
    var es := Events(t.mask) + ServeEvents(cnt, t, len, busy);
    if cnt == 6 && !SafeLength(len) then es else es + Events(t.unmask)
  }

  // What it does in a pass up to bit k of the sample v. The interface is free for replies if it
  // was before or a completion is found.
  function PassEvents(w: Pause, v: Byte, turns: nat -> Turn, k: nat, len: nat, busy: bool): seq<Event>
    decreases k
  {
    if k == 0 then Events(w)
    else
      var es := PassEvents(w, v, turns, k - 1, len, busy);
      if Bit(v, k - 1) then es + TurnEvents(k - 1, turns(k - 1), len, busy && !Bit(v, 3)) else es
  }

  lemma PassStarts(w: Pause, v: Byte, turns: nat -> Turn, len: nat, busy: bool)
    ensures PassEvents(w, v, turns, 0, len, busy) == Events(w)
  {
  }

  lemma PassOn(w: Pause, v: Byte, turns: nat -> Turn, k: nat, len: nat, busy: bool)
    ensures var es := PassEvents(w, v, turns, k, len, busy);
            PassEvents(w, v, turns, k + 1, len, busy) ==
            if Bit(v, k) then es + TurnEvents(k, turns(k), len, busy && !Bit(v, 3)) else es
  {
    hide TurnEvents, Bit;
  }

  lemma NoReplies(busy: bool)
    ensures Accepted([], busy) == [] && ReplyEvents([], busy) == []
  {
  }

  lemma OneMore(rs: seq<Reply>, i: nat, busy: bool)
    requires i < |rs|
    ensures var q, r := Accepted(rs[..i], busy), rs[i];
            && Accepted(rs[..i + 1], busy) == (if GoesOut(r, busy || q != []) then q + [Flatten(r.chain)] else q)
            && ReplyEvents(rs[..i + 1], busy) ==
               ReplyEvents(rs[..i], busy) + (r.es + if GoesOut(r, busy || q != [])
                                                    then Played(r.wire, 0, SendPoints(|Flatten(r.chain)|)) else [])
  {
    assert rs[..i + 1][..i] == rs[..i] && rs[..i + 1][i] == rs[i];
  }

  lemma ReplyLog(a: Chip, b: Chip, c: Chip, rs: seq<Reply>, i: nat, busy: bool)
    requires i < |rs| && b.log == a.log + ReplyEvents(rs[..i], busy)
    requires var r := rs[i];
             c.log == b.log + (r.es + if GoesOut(r, busy || Accepted(rs[..i], busy) != [])
                                      then Played(r.wire, 0, SendPoints(|Flatten(r.chain)|)) else [])
    ensures c.log == a.log + ReplyEvents(rs[..i + 1], busy)
  {
    hide ReplyEvents, Accepted, GoesOut, Played, Flatten;
    OneMore(rs, i, busy);
  }

  // The interface at one moment of a run.
  datatype Snapshot = Snapshot(chip: Chip, consumed: nat, busy: bool, submitted: seq<seq<Byte>>, links: nat)

  // What one job makes of it.
  ghost predicate Performed(job: Job, a: Snapshot, b: Snapshot, rs: seq<Outcome>)
  {
    && (!job.Packet? ==> rs == [])
    && match job
       case Network(es) => b == a.(chip := PlayAll(a.chip, es))
       case Packet(wire, alloc) =>
         if a.chip.Packets() == 0 then b == a && rs == []
         else PacketDone(wire, alloc, a, b, rs)
       case Output(chain, totLen, wire) =>
         var frame := Flatten(chain);
         if a.busy || |frame| != totLen then b == a
         else
           && b == a.(chip := b.chip, busy := true, submitted := a.submitted + [frame])
           && Sends(b.chip, frame) && b.chip.log == a.chip.log + Played(wire, 0, SendPoints(|frame|))
           && forall p, phy | MaySend(p) :: Leads(a.chip, p, b.chip, AfterSend(p), 5, phy)
       case TxInterrupt(w) =>
         if !a.chip.TxFlag() then b == a
         else
           && b == a.(chip := b.chip, busy := false) && b.chip.log == a.chip.log + Events(w)
           && forall v, phy | D.WellPlaced(D.Masked(v, D.TXIF)) ::
                Leads(a.chip, D.Masked(v, D.TXIF), b.chip, D.Restore(v, D.TXIF), 2, phy)
       case LinkInterrupt(es, w) =>
         && b == a.(chip := b.chip, links := a.links + 1) && b.chip.log == a.chip.log + (es + Events(w))
         && forall v | D.WellPlaced(D.LinkRead(v)) ::
              Leads(a.chip, D.Masked(v, D.LINKIF), b.chip, D.Restore(v, D.LINKIF), 2, a.links == 0)
       case OtherInterrupt(k, w) =>
         if k !in {0, 1, 5} then b == a else Accessed(Clear(EIR, MaskOf(k)), w, a, b)
       case Mask(w) => Accessed(Clear(EIE, 0x80), w, a, b)
       case Unmask(w) => Accessed(Set(EIE, 0x80), w, a, b)
  }

  ghost predicate PacketDone(wire: nat -> Pause, alloc: bool, a: Snapshot, b: Snapshot, rs: seq<Outcome>)
  {
    && b == a.(chip := b.chip, consumed := a.consumed + 1) && a.consumed < |a.chip.taken|
    && var f := a.chip.taken[a.consumed];
       && rs == [OutcomeOf(f, alloc)] && b.chip.log == a.chip.log + Played(wire, 0, HandlePoints(|f.payload|))
       && forall v, phy | D.WellPlaced(D.Fetched(v)) ::
            Leads(a.chip, D.Masked(v, D.PKTIF), b.chip, D.Input(v, false), 2, phy)
  }

  ghost predicate Accessed(x: Access, w: Pause, a: Snapshot, b: Snapshot)
  {
    b == a.(chip := b.chip) && b.chip.log == a.chip.log + Events(w) && Takes(a.chip, x, b.chip)
  }

  // A run job by job, and what it goes through.
  ghost predicate Followed(jobs: seq<Job>, snaps: seq<Snapshot>, rs: seq<Outcome>)
    decreases jobs
  {
    && |snaps| == |jobs| + 1
    && var last := |jobs| - 1;
       if jobs == [] then rs == []
       else exists k | 0 <= k <= |rs| ::
         Followed(jobs[..last], snaps[..|jobs|], rs[..k]) && Performed(jobs[last], snaps[last], snaps[|jobs|], rs[k..])
  }

  lemma FollowedOn(jobs: seq<Job>, snaps: seq<Snapshot>, rs: seq<Outcome>, job: Job, b: Snapshot, more: seq<Outcome>)
    requires Followed(jobs, snaps, rs) && Performed(job, snaps[|jobs|], b, more)
    ensures Followed(jobs + [job], snaps + [b], rs + more)
  {
    hide Performed;
    var js, ss, all, k := jobs + [job], snaps + [b], rs + more, |rs|;
    assert js[..|jobs|] == jobs && ss[..|js|] == snaps && all[..k] == rs && all[k..] == more;
  }

  class Interface {
    const dev: Device
    var bTxBusy: bool
    ghost var consumed: nat                // frames taken out of the ring
    ghost var submitted: seq<seq<Byte>>    // frames accepted for sending
    ghost var links: nat                   // link changes handled
    ghost const sentBefore: seq<seq<Byte>>

    ghost predicate Valid()
      reads this, dev, dev.store
    {
      Sound() && Banked()
    }

    ghost function Now(): Snapshot
      reads this, dev
    {
      Snapshot(dev.chip, consumed, bTxBusy, submitted, links)
    }

    // Between the handlers the chip stands in bank 0. The cached bank is that of the last access of
    // start-up until the first link change, and from then on the bank of the MII registers.
    ghost predicate Banked()
      reads this, dev
    {
      dev.chip.Bsel() == 0 && dev.bnBank == if links == 0 then BANK_1 else BANK_2
    }

    ghost predicate Sound()
      reads this, dev, dev.store
    {
      && Ready(dev) && Ptr(dev) < RING && RingOf(dev.chip, Ptr(dev), consumed)
      && dev.chip.Packets() == |dev.chip.taken| - consumed && dev.chip.mii.Idle?
      && Accounted()
    }

    // The busy flag stands for a frame on its way or a completion not yet handled, and what
    // was accepted for sending is what went out, in that order, and what is under way.
    ghost predicate Accounted()
      reads this`bTxBusy, this`submitted, dev
    {
      && (bTxBusy <==> dev.chip.Sending() || dev.chip.TxFlag())
      && sentBefore + submitted == dev.chip.out + if dev.chip.Sending() then [dev.chip.Outgoing()] else []
    }

    twostate lemma StillAccounted()
      requires old(Accounted()) && TxHistory(old(dev.chip), dev.chip)
      requires bTxBusy == old(bTxBusy) && submitted == old(submitted)
      ensures Accounted()
    {
      hide Bit, Chip.Outgoing;
    }

    constructor (d: Device)
      requires d.Quiet() && d.store.Length >= STORE && Ptr(d) == RX_START
      modifies d`chip, d`bnBank
      ensures Valid() && dev == d && !bTxBusy && submitted == [] && consumed == |d.chip.taken| && links == 0
      ensures (exists s :: D.Initial(s) && Shows(d.chip, s)) && Settled(d.chip)
      ensures sentBefore == d.chip.out
    {
      hide RingOf, Started, TxSafe, Weak, Pair;
      hide Bit, Chip.Erdpt, Chip.Packets, Chip.Outgoing, Chip.Bsel, Shows, Settled;
      dev := d;
      bTxBusy := false;
      submitted, links := [], 0;
      d.StartDriver();
      consumed := |d.chip.taken|;
      sentBefore := d.chip.out;
      new;
      StartedRing(old(d.chip), d.chip);
      StartedIdle(old(d.chip), d.chip);
      StartedIsInitial(old(d.chip), d.chip);
    }

    // enc28j60_translate: flattens the chain into the transmit store and sends it, unless a
    // frame is still on its way or the lengths disagree.
    method Translate(chain: seq<seq<Byte>>, totLen: Word, wire: nat -> Pause) returns (r: Err)
      requires Valid() && Sendable(chain, dev.store.Length)
      modifies this`bTxBusy, this`submitted, dev`chip, dev`bnBank, dev.store
      ensures Valid() && consumed == old(consumed) && old(dev.chip.taken) <= dev.chip.taken
      ensures old(submitted) <= submitted
      ensures r == InProgress <==> old(bTxBusy)
      ensures !old(bTxBusy) ==> (r == Ok <==> |Flatten(chain)| == totLen)
      ensures !old(bTxBusy) ==>
                forall j | TX_DATA <= j < dev.store.Length ::
                  dev.store[j] == Copied(old(dev.store[..]), Flatten(chain))[j]
      ensures r != Ok ==> bTxBusy == old(bTxBusy) && dev.chip == old(dev.chip) && submitted == old(submitted)
      ensures r == InProgress ==> dev.store[..] == old(dev.store[..])
      ensures r == Ok ==> bTxBusy && Sends(dev.chip, Flatten(chain)) && submitted == old(submitted) + [Flatten(chain)]
      ensures r == Ok ==> Bit(dev.chip.file[EIE], 3) && Bit(dev.chip.file[EIE], 7)
      ensures LinkStays(old(dev.chip), dev.chip)
      ensures r == Ok ==> forall p, phy | MaySend(p) :: Leads(old(dev.chip), p, dev.chip, AfterSend(p), 5, phy)
      ensures r == Ok ==> dev.chip.log == old(dev.chip).log + Played(wire, 0, SendPoints(|Flatten(chain)|))
    {
      hide RingOf, TxSafe, Bit, Or, Leads, Chip.Bsel, Played;
      ghost var c := dev.chip;
      if bTxBusy { return InProgress; }
      var offset := CopyChain(chain);
      if offset != totLen { return Buf; }
      ghost var flat := Flatten(chain);
      var ok := EtherTransmit(dev, dev.store[TX_DATA..TX_DATA + totLen], wire, Ptr(dev), consumed);
      bTxBusy := true;
      assert sentBefore + (submitted + [flat]) == sentBefore + submitted + [flat];
      submitted := submitted + [flat];
      SendsAccounted(dev.chip, flat);
      forall p, phy | MaySend(p) ensures Leads(c, p, dev.chip, AfterSend(p), 5, phy) {
        WholeSend(c, dev.chip, p, phy);
      }
      return Ok;
    }

    // The copy loop; returns the number of bytes copied. It has no bound: the bytes from the
    // 1501st on land behind the buffer, and nowhere else does anything change.
    method CopyChain(chain: seq<seq<Byte>>) returns (offset: nat)
      requires Valid() && Sendable(chain, dev.store.Length)
      modifies dev.store
      ensures Valid() && offset == |Flatten(chain)|
      ensures dev.store[..] == Copied(old(dev.store[..]), Flatten(chain))
    {
      hide RingOf, Flatten, TxSafe, Weak;
      ghost var was := dev.store[..];
      offset := 0;
      assert chain[..0] == [];
      EmptyFlat();
      NothingCopied(was);
      for k := 0 to |chain|
        invariant offset == |Flatten(chain[..k])| && offset <= |Flatten(chain)|
        invariant dev.store[..] == Copied(was, Flatten(chain[..k]))
      {
        FlattenSplit(chain, k);
        var q := chain[k];
        CopyBytes(dev.store, TX_DATA + offset, q);
        CopiedMore(was, Flatten(chain[..k]), q);
        offset := offset + |q|;
      }
      assert chain[..|chain|] == chain;
      PtrBelow(was, dev.store[..]);
    }

    // Bit 3 of the dispatcher: the completion is acknowledged, then the interface is free.
    method TransmitInterrupt(w: Pause)
      requires Valid() && dev.chip.TxFlag()
      modifies this`bTxBusy, dev`chip, dev`bnBank
      ensures Valid() && !bTxBusy && consumed == old(consumed) && submitted == old(submitted)
      ensures old(dev.chip.taken) <= dev.chip.taken && LinkStays(old(dev.chip), dev.chip)
      ensures forall v, phy | D.WellPlaced(D.Masked(v, D.TXIF)) ::
                Leads(old(dev.chip), D.Masked(v, D.TXIF), dev.chip, D.Restore(v, D.TXIF), 2, phy)
      ensures dev.chip.log == old(dev.chip).log + Events(w)
    {
      hide Events;
      hide RingOf, Bit, Or, AndNot, Chip.Outgoing, Leads, Takes, LinkStays, Chip.Bsel;
      ghost var c := dev.chip;
      LoadingSelf(c);
      ChangeFlag(dev, Clear(EIR, 0x08), w, Ptr(dev), consumed, c);
      bTxBusy := false;
      forall v, phy | D.WellPlaced(D.Masked(v, D.TXIF))
        ensures Leads(c, D.Masked(v, D.TXIF), dev.chip, D.Restore(v, D.TXIF), 2, phy)
      {
        CompletionLeads(c, dev.chip, v, phy);
      }
    }

    // One of the dispatcher's other accesses to EIE or EIR.
    method KeepHouse(x: Access, w: Pause)
      requires Sound() && Housekeeping(x)
      modifies dev`chip, dev`bnBank
      ensures Sound() && old(dev.chip.taken) <= dev.chip.taken && LinkStays(old(dev.chip), dev.chip)
      ensures dev.bnBank == old(dev.bnBank) && dev.chip.Bsel() == 0
      ensures Takes(old(dev.chip), x, dev.chip) && (old(dev.chip.TxFlag()) ==> dev.chip.TxFlag())
      ensures dev.chip.Packets() >= old(dev.chip.Packets()) && dev.chip.log == old(dev.chip).log + Events(w)
    {
      hide RingOf, TxHistory, Accounted, LinkStays, Takes, Chip.Bsel, TxSafe, Chip.TxFlag, Events;
      ghost var c := dev.chip;
      Transmission.KeepHouse(dev, x, w, Ptr(dev), consumed);
      FlagKept(c, dev.chip);
      StillAccounted();
    }

    // Bit 4 of the dispatcher: PHIR is read and the link-change interrupt disabled. The read
    // reaches the PHY at the first link change since start-up and goes astray at every later
    // one: it then returns the answer of an earlier read, and LINKIF stays up.
    method LinkInterrupt(es: seq<Event>, w: Pause) returns (flags: Word, ghost reached: bool)
      requires Valid()
      modifies this`links, dev`chip, dev`bnBank
      ensures Valid() && old(dev.chip.taken) <= dev.chip.taken && links == old(links) + 1
      ensures reached <==> old(links) == 0
      ensures flags == if reached then old(dev.chip.phy)[PHIR] else old(dev.chip.Mird())
      ensures !reached ==> LinkStays(old(dev.chip), dev.chip)
      ensures forall v | D.WellPlaced(D.LinkRead(v)) ::
                Leads(old(dev.chip), D.Masked(v, D.LINKIF), dev.chip, D.Restore(v, D.LINKIF), 2, reached)
      ensures dev.chip.log == old(dev.chip).log + (es + Events(w))
    {
      hide Events;
      hide RingOf, TxHistory, Accounted, TxSafe, PhyRead, LinkStays, Leads, Takes, Evolves, Chip.Mird, Weak;
      ghost var c := dev.chip;
      NetworkSide(es);
      ghost var p := dev.View();
      FirstReaches(p, links);
      flags, reached := ReadLink();
      ghost var d := dev.chip;
      KeepHouse(Clear(EIE, 0x10), w);
      LogThen(c, d, dev.chip, es, Events(w));
      links := links + 1;
      if !reached {
        LinkTwice(c, p.chip, d);
        LinkTwice(c, d, dev.chip);
      }
      forall v | D.WellPlaced(D.LinkRead(v))
        ensures Leads(c, D.Masked(v, D.LINKIF), dev.chip, D.Restore(v, D.LINKIF), 2, reached)
      {
        LinkLeads(c, p, dev.chip, v);
      }
    }

    method ReadLink() returns (flags: Word, ghost reached: bool)
      requires Sound()
      modifies dev`chip, dev`bnBank
      ensures Sound() && old(dev.chip.taken) <= dev.chip.taken && dev.bnBank == BANK_2
      ensures reached == ReachesMii(old(dev.View())) && dev.chip == PhyRead(old(dev.View()), PHIR).0.chip
      ensures flags == if reached then old(dev.chip.phy)[PHIR] else old(dev.chip.Mird())
      ensures !reached ==> LinkStays(old(dev.chip), dev.chip)
      ensures dev.chip.log == old(dev.chip).log
    {
      hide RingOf, TxHistory, Accounted, PhyRead, TxSafe, Aside, ClearBits, LinkStays, Chip.Mird;
      ghost var c := dev.chip;
      PhyReadLog(dev.View(), PHIR);
      reached := ReachesMii(dev.View());
      PhyReadEffect(dev.View(), PHIR);
      flags := dev.ReadPhyReg(PHIR);
      PhyKeeps(c, dev.chip, !reached, Ptr(dev), consumed);
      StillAccounted();
    }

    // Bit 6 of the dispatcher.
    method PacketInterrupt(wire: nat -> Pause, alloc: bool) returns (r: Outcome, safe: bool)
      requires Valid() && dev.chip.Packets() > 0
      modifies this`consumed, dev`chip, dev`bnBank, dev.store
      ensures consumed == old(consumed) + 1 && submitted == old(submitted) && bTxBusy == old(bTxBusy)
      ensures old(dev.chip.taken) <= dev.chip.taken && consumed <= |dev.chip.taken|
      ensures r == OutcomeOf(dev.chip.taken[old(consumed)], alloc)
      ensures dev.chip.log == old(dev.chip).log + Played(wire, 0, HandlePoints(|dev.chip.taken[old(consumed)].payload|))
      ensures old(consumed) < |old(dev.chip.taken)|
      ensures safe == SafeLength(|dev.chip.taken[old(consumed)].payload|)
      ensures Accounted() && (safe ==> Valid()) && LinkStays(old(dev.chip), dev.chip)
      ensures forall v, phy | D.WellPlaced(D.Fetched(v)) ::
                Leads(old(dev.chip), D.Masked(v, D.PKTIF), dev.chip, D.Input(v, false), 2, phy)
    {
      hide RingOf, TxHistory, SafeLength, OutcomeOf, Accounted, LinkStays, Leads, Chip.Bsel, Played, HandlePoints;
      r, safe := HandlePacket(dev, wire, alloc, consumed);
      consumed := consumed + 1;
      StillAccounted();
    }

    method NetworkSide(es: seq<Event>)
      requires Valid()
      modifies dev`chip
      ensures Valid() && old(dev.chip.taken) <= dev.chip.taken
      ensures Evolves(old(dev.chip), dev.chip) && LinkStays(old(dev.chip), dev.chip)
      ensures dev.chip.phy == old(dev.chip.phy) && dev.chip.Mird() == old(dev.chip.Mird())
      ensures dev.chip == PlayAll(old(dev.chip), es) && dev.chip.log == old(dev.chip).log + es
    {
      hide RingOf, TxHistory, Accounted, LinkStays, Evolves, Chip.Bsel;
      ghost var c := dev.chip;
      Happen(dev, es, Ptr(dev), consumed);
      EventsKeep(c, dev.chip);
      StillAccounted();
    }

    // One job. A packet job without a packet, and a completion job without a completion, are
    // passed over.
    method Perform(job: Job) returns (rs: seq<Outcome>, safe: bool)
      requires Valid() && (job.Output? ==> Sendable(job.chain, dev.store.Length))
      modifies this`bTxBusy, this`submitted, this`consumed, this`links, dev`chip, dev`bnBank, dev.store
      ensures Performed(job, old(Now()), Now(), rs)
      ensures consumed == old(consumed) + |rs| && |rs| <= 1 && consumed <= |dev.chip.taken|
      ensures old(dev.chip.taken) <= dev.chip.taken && Accounted() && old(submitted) <= submitted
      ensures rs != [] ==> Served(dev.chip.taken[old(consumed)], rs[0])
      ensures if safe then Valid() else rs != [] && !SafeLength(|dev.chip.taken[old(consumed)].payload|)
      ensures old(links) <= links && (old(links) > 0 ==> LinkStays(old(dev.chip), dev.chip))
    {
      hide RingOf, Ready, SafeLength, OutcomeOf, Sends, Flatten, Played, Events, HandlePoints;
      hide Bit, LinkStays, Leads, Takes, Evolves, Chip.Mird, Accounted;
      rs, safe := [], true;
      LinkSelf(dev.chip);
      CountBound();
      match job {
        case Network(es) => NetworkSide(es);
        case Packet(wire, alloc) =>
          if dev.chip.Packets() > 0 {
            var r;
            r, safe := PacketInterrupt(wire, alloc);
            rs := [r];
          }
        case Output(chain, totLen, wire) => var r := Translate(chain, totLen, wire);
        case TxInterrupt(w) => if dev.chip.TxFlag() { TransmitInterrupt(w); }
        case LinkInterrupt(es, w) =>
          ghost var first;
          var flags: Word;
          flags, first := LinkInterrupt(es, w);
        case _ => PerformAccess(job);
      }
    }

    method PerformAccess(job: Job)
      requires Valid() && (job.OtherInterrupt? || job.Mask? || job.Unmask?)
      modifies dev`chip, dev`bnBank
      ensures Performed(job, old(Now()), Now(), []) && Valid()
      ensures consumed <= |dev.chip.taken| && old(dev.chip.taken) <= dev.chip.taken
      ensures LinkStays(old(dev.chip), dev.chip)
    {
      hide RingOf, Ready, Flatten, Played, Events, LinkStays, Leads, Takes, Evolves, Accounted, Bit;
      LinkSelf(dev.chip);
      CountBound();
      match job {
        case OtherInterrupt(k, w) =>
          if k == 0 { KeepHouse(Clear(EIR, 0x01), w); }
          else if k == 1 { KeepHouse(Clear(EIR, 0x02), w); }
          else if k == 5 { KeepHouse(Clear(EIR, 0x20), w); }
        case Mask(w) => KeepHouse(Clear(EIE, 0x80), w);
        case Unmask(w) => KeepHouse(Set(EIE, 0x80), w);
      }
      CountBound();
    }

    lemma CountBound()
      requires Valid()
      ensures consumed <= |dev.chip.taken| && Accounted()
    {
    }

    // Any run, job by job. Received frames come out once each, in order and intact; frames accepted
    // for sending go on the wire once each, in order and intact, the last one being possibly still
    // under way; and the two never disturb each other. After the first link change since start-up
    // LINKIF is never cleared. Only a received frame of 1501 to 1517 bytes ends the run early.
    method Run(jobs: seq<Job>) returns (rs: seq<Outcome>, done: nat, safe: bool, ghost snaps: seq<Snapshot>)
      requires Valid()
      requires forall i | 0 <= i < |jobs| && jobs[i].Output? :: Sendable(jobs[i].chain, dev.store.Length)
      modifies this`bTxBusy, this`submitted, this`consumed, this`links, dev`chip, dev`bnBank, dev.store
      ensures done <= |jobs| && |snaps| == done + 1 && Followed(jobs[..done], snaps, rs)
      ensures snaps[0] == old(Now()) && snaps[done] == Now()
      ensures consumed == old(consumed) + |rs|
      ensures old(dev.chip.taken) <= dev.chip.taken && consumed <= |dev.chip.taken|
      ensures forall i | 0 <= i < |rs| :: Served(dev.chip.taken[old(consumed) + i], rs[i])
      ensures Accounted() && old(submitted) <= submitted
      ensures old(links) > 0 ==> LinkStays(old(dev.chip), dev.chip)
      ensures if safe then done == |jobs| && Valid()
              else rs != [] && !SafeLength(|dev.chip.taken[consumed - 1].payload|)
    {
      hide RingOf, Ready, Accounted, SafeLength, Performed, Followed;
      hide Served, Flatten, LinkStays, Interface.Sound, Interface.Banked;
      rs, done, safe, snaps := [], 0, true, [Now()];
      assert Followed(jobs[..0], snaps, rs) by { NothingFollowed(Now()); }
      LinkSelf(dev.chip);
      CountBound();
      while done < |jobs|
        invariant 0 <= done <= |jobs| && safe && Valid() && consumed == old(consumed) + |rs|
        invariant old(dev.chip.taken) <= dev.chip.taken && consumed <= |dev.chip.taken| && Accounted()
        invariant forall i | 0 <= i < |rs| :: Served(dev.chip.taken[old(consumed) + i], rs[i])
        invariant old(submitted) <= submitted && old(links) <= links
        invariant |snaps| == done + 1 && snaps[0] == old(Now()) && snaps[done] == Now()
        invariant Followed(jobs[..done], snaps, rs)
        invariant old(links) > 0 ==> LinkStays(old(dev.chip), dev.chip)
      {
        ghost var c := dev.chip;
        assert jobs[..done + 1] == jobs[..done] + [jobs[done]];
        var more;
        more, safe := Perform(jobs[done]);
        FollowedOn(jobs[..done], snaps, rs, jobs[done], Now(), more);
        rs, done, snaps := rs + more, done + 1, snaps + [Now()];
        if old(links) > 0 { LinkTwice(old(dev.chip), c, dev.chip); }
        if !safe { return; }
      }
    }

    // ----- the dispatcher's pass over EIR -----

    method Sample(w: Pause) returns (v: Byte)
      requires Valid()
      modifies dev`chip, dev`bnBank
      ensures Valid() && old(dev.chip.taken) <= dev.chip.taken && !Bit(v, 7)
      ensures dev.chip.Packets() >= old(dev.chip.Packets()) && (Bit(v, 6) ==> consumed < |dev.chip.taken|)
      ensures dev.chip == Approached(old(dev.chip), w) && v == dev.chip.Peek(0, 0x1C)
      ensures (Bit(v, 6) <==> dev.chip.Packets() > 0) && (Bit(v, 3) <==> dev.chip.TxFlag())
      ensures forall phy :: Leads(old(dev.chip), D.Stored, dev.chip, D.Scan(Flags(v), 0), 1, phy)
      ensures dev.chip.log == old(dev.chip).log + Events(w)
    {
      hide RingOf, TxHistory, Accounted, TxSafe, Bit, Leads, Evolves, Flags, LinkStays, Events, Approached;
      ghost var c0 := dev.chip;
      Approach(dev, w, Ptr(dev), consumed);
      ghost var c := dev.chip;
      NearingCounts(c0, c);
      StillAccounted();
      ReadFlags(c);
      AtBankZero(dev.View(), Read(EIR));
      v := dev.GetByte(EIR);
      forall phy ensures Leads(c0, D.Stored, c, D.Scan(Flags(v), 0), 1, phy) {
        SampleLeads(c, phy);
        EvolvesThenLeads(c0, c, D.Stored, c, D.Scan(Flags(v), 0), 1, phy);
      }
    }

    // The handler of one bit, with INTIE off.
    method Serve(v: Byte, cnt: nat, t: Turn, ghost phy: bool)
      returns (rs: seq<Outcome>, safe: bool, ghost m: nat)
      requires Valid() && cnt < 7 && Bit(v, cnt) && RepliesFit(t, dev.store.Length)
      requires (cnt == 6 ==> dev.chip.Packets() > 0) && (cnt == 3 ==> dev.chip.TxFlag())
      requires cnt == 4 ==> (phy <==> links == 0)
      modifies this`bTxBusy, this`submitted, this`consumed, this`links, dev`chip, dev`bnBank, dev.store
      ensures consumed == old(consumed) + |rs| && consumed <= |dev.chip.taken| && old(dev.chip.taken) <= dev.chip.taken
      ensures cnt == 6 ==> old(consumed) < |old(dev.chip.taken)|
      ensures rs == if cnt == 6 then [OutcomeOf(dev.chip.taken[old(consumed)], t.alloc)] else []
      ensures safe == (cnt == 6 ==> SafeLength(|dev.chip.taken[old(consumed)].payload|)) && (safe ==> Valid())
      ensures cnt < 3 && old(dev.chip.TxFlag()) ==> dev.chip.TxFlag()
      ensures links == old(links) + D.One(cnt == 4)
      ensures var len := if cnt == 6 then |dev.chip.taken[old(consumed)].payload| else 0;
              var sent := if cnt == 6 then Accepted(Heard(t, len), old(bTxBusy)) else [];
              submitted == old(submitted) + sent && bTxBusy == ((old(bTxBusy) && cnt != 3) || sent != [])
      ensures var len := if cnt == 6 then |dev.chip.taken[old(consumed)].payload| else 0;
              dev.chip.log == old(dev.chip).log + ServeEvents(cnt, t, len, old(bTxBusy))
      ensures safe ==> Leads(old(dev.chip), D.Masked(Flags(v), cnt), dev.chip, D.Restore(Flags(v), cnt), m, phy)
      ensures cnt < 6 ==> dev.chip.Packets() >= old(dev.chip.Packets())
    {
      hide RingOf, TxHistory, Accounted, SafeLength, LinkStays, OutcomeOf, Played, Events, ReplyEvents, Accepted, Heard;
      hide Leads, Takes, Evolves, Flags, Ready, Bit, Chip.Mird;
      rs, safe, m := [], true, 1;
      ghost var c, f := dev.chip, Flags(v);
      SampledFlags(v, cnt);
      CountBound();
      match cnt {
        case 2 => StepLeads(c, D.Masked(f, 2), phy);
        case 3 =>
          TransmitInterrupt(t.w);
          m := 2;
        case 4 =>
          var flags: Word;
          ghost var first;
          flags, first := LinkInterrupt(t.es, t.w);
          m := 2;
        case 6 => rs, safe, m := ServePacket(f, t, phy);
        case _ =>
          KeepHouse(Clear(EIR, MaskOf(cnt)), t.w);
          TakenAt(c, Clear(EIR, MaskOf(cnt)), dev.chip, D.Masked(f, cnt), phy);
      }
    }

    // A packet, and what the stack answers.
    method ServePacket(ghost f: D.Flags, t: Turn, ghost phy: bool)
      returns (rs: seq<Outcome>, safe: bool, ghost m: nat)
      requires Valid() && dev.chip.Packets() > 0 && RepliesFit(t, dev.store.Length) && D.WellPlaced(D.Fetched(f))
      modifies this`bTxBusy, this`submitted, this`consumed, dev`chip, dev`bnBank, dev.store
      ensures consumed == old(consumed) + 1 <= |dev.chip.taken| && old(dev.chip.taken) <= dev.chip.taken
      ensures old(consumed) < |old(dev.chip.taken)|
      ensures rs == [OutcomeOf(dev.chip.taken[old(consumed)], t.alloc)]
      ensures safe == SafeLength(|dev.chip.taken[old(consumed)].payload|) && (safe ==> Valid())
      ensures var sent := Accepted(Heard(t, |dev.chip.taken[old(consumed)].payload|), old(bTxBusy));
              submitted == old(submitted) + sent && bTxBusy == (old(bTxBusy) || sent != [])
      ensures dev.chip.log == old(dev.chip).log
                              + ServeEvents(6, t, |dev.chip.taken[old(consumed)].payload|, old(bTxBusy))
      ensures safe ==> Leads(old(dev.chip), D.Masked(f, D.PKTIF), dev.chip, D.Restore(f, D.PKTIF), m, phy)
    {
      hide RingOf, TxHistory, Accounted, SafeLength, LinkStays, Leads, OutcomeOf, Played, ReplyEvents, Accepted, Heard;
      hide Evolves, Ready, Flatten, Sends, Bit, Chip.Mird, Interface.Sound, Interface.Banked, HandlePoints;
      ghost var c, p := dev.chip, D.Masked(f, D.PKTIF);
      var r;
      r, safe := PacketInterrupt(t.wire, t.alloc);
      rs, m := [r], 2;
      HeardIfDelivered(t, dev.chip.taken[old(consumed)]);
      NoReplies(bTxBusy);
      if !safe { return; }
      ghost var d := dev.chip;
      var replies := if r.Delivered? then t.replies else [];
      ghost var steps, replied := Answer(f, replies, phy);
      ghost var q := D.Input(f, replied);
      LogThen(c, d, dev.chip, Played(t.wire, 0, HandlePoints(|dev.chip.taken[old(consumed)].payload|)),
              ReplyEvents(replies, old(bTxBusy)));
      LeadsTwice(c, p, d, D.Input(f, false), dev.chip, q, 2, steps, phy);
      StepLeads(dev.chip, q, phy);
      LeadsTwice(c, p, dev.chip, q, dev.chip, D.Restore(f, D.PKTIF), 2 + steps, 1, phy);
      m := 3 + steps;
    }

    // What the stack sends while it has the packet.
    method Answer(ghost f: D.Flags, replies: seq<Reply>, ghost phy: bool) returns (ghost m: nat, ghost replied: bool)
      requires Valid() && D.WellPlaced(D.Fetched(f))
      requires forall i | 0 <= i < |replies| :: Sendable(replies[i].chain, dev.store.Length)
      modifies this`bTxBusy, this`submitted, dev`chip, dev`bnBank, dev.store
      ensures Valid() && old(dev.chip.taken) <= dev.chip.taken && MaySend(D.Input(f, replied))
      ensures var sent := Accepted(replies, old(bTxBusy));
              submitted == old(submitted) + sent && bTxBusy == (old(bTxBusy) || sent != [])
      ensures dev.chip.log == old(dev.chip).log + ReplyEvents(replies, old(bTxBusy))
      ensures Leads(old(dev.chip), D.Input(f, false), dev.chip, D.Input(f, replied), m, phy)
    {
      hide RingOf, TxHistory, Accounted, LinkStays, Leads, Played, Accepted, ReplyEvents, GoesOut;
      hide Evolves, Ready, Flatten, Sends, Bit, Chip.Mird, Interface.Sound, Interface.Banked;
      ghost var c, busy, p := dev.chip, bTxBusy, D.Input(f, false);
      m, replied := 0, false;
      NoReplies(busy);
      NoSteps(c, p, phy);
      for i := 0 to |replies|
        invariant Valid() && old(dev.chip.taken) <= dev.chip.taken && MaySend(D.Input(f, replied))
        invariant submitted == old(submitted) + Accepted(replies[..i], busy)
        invariant bTxBusy == (busy || Accepted(replies[..i], busy) != [])
        invariant dev.chip.log == c.log + ReplyEvents(replies[..i], busy)
        invariant Leads(c, p, dev.chip, D.Input(f, replied), m, phy)
      {
        ghost var c1 := dev.chip;
        ghost var steps, more := AnswerOne(f, replies[i], phy, replied);
        OneMore(replies, i, busy);
        ReplyLog(c, c1, dev.chip, replies, i, busy);
        LeadsTwice(c, p, c1, D.Input(f, replied), dev.chip, D.Input(f, more), m, steps, phy);
        m, replied := m + steps, more;
      }
      assert replies[..|replies|] == replies;
    }

    method AnswerOne(ghost f: D.Flags, r: Reply, ghost phy: bool, ghost before: bool)
      returns (ghost m: nat, ghost replied: bool)
      requires Valid() && MaySend(D.Input(f, before)) && Sendable(r.chain, dev.store.Length)
      modifies this`bTxBusy, this`submitted, dev`chip, dev`bnBank, dev.store
      ensures Valid() && old(dev.chip.taken) <= dev.chip.taken && MaySend(D.Input(f, replied))
      ensures var out := GoesOut(r, old(bTxBusy));
              && submitted == old(submitted) + (if out then [Flatten(r.chain)] else [])
              && bTxBusy == (old(bTxBusy) || out)
              && dev.chip.log == old(dev.chip).log +
                                 (r.es + if out then Played(r.wire, 0, SendPoints(|Flatten(r.chain)|)) else [])
      ensures Leads(old(dev.chip), D.Input(f, before), dev.chip, D.Input(f, replied), m, phy)
    {
      hide RingOf, TxHistory, Accounted, LinkStays, Leads, Played;
      hide Evolves, Ready, Flatten, Sends, Bit, Chip.Mird, Interface.Sound, Interface.Banked;
      ghost var c1, q := dev.chip, D.Input(f, before);
      NetworkSide(r.es);
      ghost var c2 := dev.chip;
      EvolvesStays(c1, c2, q, phy);
      var e := Translate(r.chain, r.totLen, r.wire);
      m, replied := 0, before;
      if e == Ok {
        LeadsTwice(c1, q, c2, q, dev.chip, AfterSend(q), 0, 5, phy);
        m, replied := 5, true;
        LogThen(c1, c2, dev.chip, r.es, Played(r.wire, 0, SendPoints(|Flatten(r.chain)|)));
      }
    }

    // From the reading of EIR to the head of the loop: every bit found, in ascending order, with
    // INTIE off before it and on again after it. A packet is served exactly if the sample shows one.
    // The whole is a run of the machine from Stored to Head on what the chip shows.
    method Dispatch(w: Pause, turns: nat -> Turn) returns (rs: seq<Outcome>, safe: bool, v: Byte, ghost m: nat)
      requires Valid() && forall k :: RepliesFit(turns(k), dev.store.Length)
      modifies this`bTxBusy, this`submitted, this`consumed, this`links, dev`chip, dev`bnBank, dev.store
      ensures v == Approached(old(dev.chip), w).Peek(0, 0x1C) && (old(dev.chip.Packets()) > 0 ==> Bit(v, 6))
      ensures consumed == old(consumed) + |rs| && consumed <= |dev.chip.taken| && old(dev.chip.taken) <= dev.chip.taken
      ensures Bit(v, 6) ==> old(consumed) < |dev.chip.taken|
      ensures rs == if Bit(v, 6) then [OutcomeOf(dev.chip.taken[old(consumed)], turns(6).alloc)] else []
      ensures var len := if Bit(v, 6) then |dev.chip.taken[old(consumed)].payload| else 0;
              && safe == SafeLength(len) && (safe ==> Valid())
              && dev.chip.log == old(dev.chip).log + PassEvents(w, v, turns, 8, len, old(bTxBusy))
              && var sent := if Bit(v, 6) then Accepted(Heard(turns(6), len), old(bTxBusy) && !Bit(v, 3)) else [];
              && submitted == old(submitted) + sent
              && bTxBusy == ((old(bTxBusy) && !Bit(v, 3)) || sent != [])
      ensures links == old(links) + D.One(Bit(v, 4))
      ensures safe ==> Leads(old(dev.chip), D.Stored, dev.chip, D.Head, m, old(links) == 0)
      ensures safe && Settled(old(dev.chip)) ==>
                Settled(dev.chip) && (dev.chip.log == old(dev.chip).log ==> Cleared(dev.chip, old(links) == 0))
    {
      hide RingOf, TxHistory, Accounted, SafeLength, LinkStays, Leads, OutcomeOf, TurnEvents, Accepted, PassEvents;
      hide Settled, Cleared, Heard;
      hide Takes, Evolves, Ready, Bit, Flags, RepliesFit, Interface.Sound, Interface.Banked, Approached, Chip.Peek;
      ghost var c, phy, busy := dev.chip, links == 0, bTxBusy;
      v := Sample(w);
      rs, safe, m := [], true, 1;
      ghost var f := Flags(v);
      CountBound();
      NothingIsSafe();
      ghost var len := if Bit(v, 6) then |dev.chip.taken[consumed].payload| else 0;
      PassStarts(w, v, turns, len, busy);
      for cnt := 0 to 8
        invariant Valid() && safe && old(dev.chip.taken) <= dev.chip.taken
        invariant consumed == old(consumed) + |rs| && consumed <= |dev.chip.taken|
        invariant Bit(v, 6) ==> old(consumed) < |dev.chip.taken| && len == |dev.chip.taken[old(consumed)].payload|
        invariant cnt > 6 ==> SafeLength(len)
        invariant rs == if Bit(v, 6) && cnt > 6 then [OutcomeOf(dev.chip.taken[old(consumed)], turns(6).alloc)] else []
        invariant (Bit(v, 6) && cnt <= 6 ==> dev.chip.Packets() > 0) && (Bit(v, 3) && cnt <= 3 ==> dev.chip.TxFlag())
        invariant links == old(links) + D.One(Bit(v, 4) && cnt > 4)
        invariant var sent := if Bit(v, 6) && cnt > 6 then Accepted(Heard(turns(6), len), busy && !Bit(v, 3)) else [];
                  && submitted == old(submitted) + sent
                  && bTxBusy == ((busy && !(cnt > 3 && Bit(v, 3))) || sent != [])
        invariant dev.chip.log == c.log + PassEvents(w, v, turns, cnt, len, busy)
        invariant Leads(c, D.Stored, dev.chip, D.Scan(f, cnt), m, phy)
      {
        ghost var c1 := dev.chip;
        ghost var steps := 1;
        PassOn(w, v, turns, cnt, len, busy);
        if Bit(v, cnt) {
          var more;
          more, safe, steps := TakeTurn(v, cnt, turns(cnt), phy, len, busy && !Bit(v, 3));
          rs := rs + more;
          LogThen(c, c1, dev.chip, PassEvents(w, v, turns, cnt, len, busy),
                  TurnEvents(cnt, turns(cnt), len, busy && !Bit(v, 3)));
          if !safe { PassOn(w, v, turns, 7, len, busy); return; }
        } else {
          SkipsBit(c1, v, cnt, phy);
        }
        LeadsTwice(c, D.Stored, c1, D.Scan(f, cnt), dev.chip, D.Scan(f, cnt + 1), m, steps, phy);
        m := m + steps;
      }
      ScanEnds(dev.chip, v, phy);
      LeadsTwice(c, D.Stored, dev.chip, D.Scan(f, 8), dev.chip, D.Head, m, 1, phy);
      m := m + 1;
      if Settled(c) { PassSettles(c, dev.chip, m, phy); }
    }

    // One bit that was found; len is the length of the oldest frame.
    method TakeTurn(v: Byte, cnt: nat, t: Turn, ghost phy: bool, ghost len: nat, ghost busy: bool)
      returns (rs: seq<Outcome>, safe: bool, ghost m: nat)
      requires Valid() && cnt < 7 && Bit(v, cnt) && RepliesFit(t, dev.store.Length)
      requires (cnt == 6 ==> dev.chip.Packets() > 0) && (cnt == 3 ==> dev.chip.TxFlag())
      requires cnt == 4 ==> (phy <==> links == 0)
      requires cnt == 6 ==> busy == bTxBusy && consumed < |dev.chip.taken| && len == |dev.chip.taken[consumed].payload|
      modifies this`bTxBusy, this`submitted, this`consumed, this`links, dev`chip, dev`bnBank, dev.store
      ensures consumed == old(consumed) + |rs| && consumed <= |dev.chip.taken| && old(dev.chip.taken) <= dev.chip.taken
      ensures cnt == 6 ==> old(consumed) < |dev.chip.taken|
      ensures rs == if cnt == 6 then [OutcomeOf(dev.chip.taken[old(consumed)], t.alloc)] else []
      ensures safe == (cnt == 6 ==> SafeLength(len)) && (safe ==> Valid())
      ensures cnt < 3 && old(dev.chip.TxFlag()) ==> dev.chip.TxFlag()
      ensures links == old(links) + D.One(cnt == 4)
      ensures var sent := if cnt == 6 then Accepted(Heard(t, len), busy) else [];
              submitted == old(submitted) + sent && bTxBusy == ((old(bTxBusy) && cnt != 3) || sent != [])
      ensures dev.chip.log == old(dev.chip).log + TurnEvents(cnt, t, len, busy)
      ensures safe ==> Leads(old(dev.chip), D.Scan(Flags(v), cnt), dev.chip, D.Scan(Flags(v), cnt + 1), m, phy)
      ensures cnt < 6 ==> dev.chip.Packets() >= old(dev.chip.Packets())
    {
      hide RingOf, TxHistory, Accounted, SafeLength, LinkStays, Leads, Takes, OutcomeOf, Events, ServeEvents, Accepted;
      hide Heard;
      hide Evolves, Ready, Bit, Flags, RepliesFit, Interface.Sound, Chip.TxFlag, Chip.Packets;
      ghost var c, f := dev.chip, Flags(v);
      SampledFlags(v, cnt);
      KeepHouse(Clear(EIE, 0x80), t.mask);
      ghost var c1 := dev.chip;
      MaskLeads(c, c1, v, cnt, phy);
      rs, safe, m := Serve(v, cnt, t, phy);
      ghost var c2, es := dev.chip, ServeEvents(cnt, t, len, busy);
      SameServe(cnt, t, if cnt == 6 then |dev.chip.taken[old(consumed)].payload| else 0, len, old(bTxBusy), busy);
      LogThen(c, c1, c2, Events(t.mask), es);
      if !safe { return; }
      LeadsTwice(c, D.Scan(f, cnt), c1, D.Masked(f, cnt), c2, D.Restore(f, cnt), 1, m, phy);
      KeepHouse(Set(EIE, 0x80), t.unmask);
      LogThen(c, c2, dev.chip, Events(t.mask) + es, Events(t.unmask));
      UnmaskLeads(c2, dev.chip, v, cnt, phy);
      LeadsTwice(c, D.Scan(f, cnt), c2, D.Restore(f, cnt), dev.chip, D.Scan(f, cnt + 1), 1 + m, 1, phy);
      m := 2 + m;
    }
  }

  lemma SameServe(cnt: nat, t: Turn, len: nat, len': nat, busy: bool, busy': bool)
    requires cnt == 6 ==> len == len' && busy == busy'
    ensures ServeEvents(cnt, t, len, busy) == ServeEvents(cnt, t, len', busy')
  {
  }

  // memcpy
  method CopyBytes(store: array<Byte>, at: nat, q: seq<Byte>)
    requires at + |q| <= store.Length
    modifies store
    ensures store[..] == old(store[..at]) + q + old(store[at + |q|..])
  {
    forall i | 0 <= i < |q| { store[at + i] := q[i]; }
  }

  lemma PtrBelow(a: seq<Byte>, b: seq<Byte>)
    requires |a| == |b| && |a| >= STORE && a[..TX_DATA] == b[..TX_DATA]
    ensures a[PTR_ADDR] == b[PTR_ADDR] && a[PTR_ADDR + 1] == b[PTR_ADDR + 1]
  {
    assert a[..TX_DATA][PTR_ADDR] == a[PTR_ADDR] && a[..TX_DATA][PTR_ADDR + 1] == a[PTR_ADDR + 1];
  }

  // The memory with the bytes copied from the start of the transmit buffer on.
  function Copied(m: seq<Byte>, q: seq<Byte>): (r: seq<Byte>)
    requires TX_DATA + |q| <= |m|
    ensures |r| == |m| && r[TX_DATA..TX_DATA + |q|] == q && r[..TX_DATA] == m[..TX_DATA]
  {
    m[..TX_DATA] + q + m[TX_DATA + |q|..]
  }

  lemma NothingCopied(m: seq<Byte>)
    requires TX_DATA <= |m|
    ensures Copied(m, []) == m
  {
  }

  lemma CopiedMore(m: seq<Byte>, a: seq<Byte>, b: seq<Byte>)
    requires TX_DATA + |a| + |b| <= |m|
    ensures var c := Copied(m, a);
            Copied(m, a + b) == c[..TX_DATA + |a|] + b + c[TX_DATA + |a| + |b|..]
  {
  }

  // What lies behind the buffer is left alone, whatever the frame contains, exactly if the frame
  // has no more than 1500 bytes.
  lemma SparedExactly(memory: nat, len: nat)
    requires STORE <= memory && TX_DATA + len <= memory
    ensures len <= BUFFER_SIZE <==>
            forall m: seq<Byte>, q: seq<Byte> | |m| == memory && |q| == len :: Copied(m, q)[STORE..] == m[STORE..]
  {
    if len > BUFFER_SIZE {
      var m: seq<Byte>, q: seq<Byte> := seq(memory, _ => 0), seq(len, _ => 1);
      assert Copied(m, q)[STORE..][0] == q[BUFFER_SIZE] && m[STORE..][0] == 0;
    } else {
      forall m: seq<Byte>, q: seq<Byte> | |m| == memory && |q| == len ensures Copied(m, q)[STORE..] == m[STORE..] {
        SparedBehind(m, q);
      }
    }
  }

  lemma SparedBehind(m: seq<Byte>, q: seq<Byte>)
    requires STORE <= |m| && |q| <= BUFFER_SIZE
    ensures Copied(m, q)[STORE..] == m[STORE..]
  {
  }

  // What the sample says of the chip.
  lemma ReadFlags(c: Chip)
    ensures var (d, v) := Perform(c, 0, Read(EIR));
            d == c && (Bit(v, 6) <==> c.Packets() > 0) && (Bit(v, 3) <==> c.TxFlag()) && !Bit(v, 7)
  {
    hide Bit, SetBits, ClearBits;
    var x: Byte := c.file[EIR] % 0x80;
    assert Pow2(7) == 0x80;
    LowBitsOf(c.file[EIR], 7, 3);
    LowBitsOf(c.file[EIR], 7, 7);
    MaskBits();
    forall k | k == 3 || k == 6 || k == 7
      ensures Bit(SetBits(x, 0x40), k) == (Bit(x, k) || Bit(0x40, k))
      ensures Bit(ClearBits(x, 0x40), k) == (Bit(x, k) && !Bit(0x40, k))
    {
      SetHasBit(x, 0x40, k);
      ClearHasBit(x, 0x40, k);
    }
  }

  lemma SampledFlags(v: Byte, cnt: nat)
    requires cnt < 7 && Bit(v, cnt)
    ensures var f := Flags(v);
            cnt in f && D.Sampled(f) && D.WellPlaced(D.Masked(f, cnt)) && D.WellPlaced(D.Scan(f, cnt))
            && D.WellPlaced(D.Restore(f, cnt))
            && (cnt == 4 ==> D.WellPlaced(D.LinkRead(f))) && (cnt == 6 ==> D.WellPlaced(D.Fetched(f)))
            && (cnt in {0, 1, 5} ==> AccessAt(D.Masked(f, cnt)) == [Clear(EIR, MaskOf(cnt))]
                                     && PcAfter(D.Masked(f, cnt)) == D.Restore(f, cnt)
                                     && Housekeeping(Clear(EIR, MaskOf(cnt))))
            && (cnt == 2 ==> AccessAt(D.Masked(f, cnt)) == [] && PcAfter(D.Masked(f, cnt)) == D.Restore(f, cnt))
  {
    hide Bit;
    forall b | b in Flags(v) ensures b in D.ALL {}
  }

  lemma MaskLeads(c: Chip, d: Chip, v: Byte, cnt: nat, phy: bool)
    requires cnt < 7 && Bit(v, cnt) && Takes(c, Clear(EIE, 0x80), d)
    ensures Leads(c, D.Scan(Flags(v), cnt), d, D.Masked(Flags(v), cnt), 1, phy)
  {
    hide Leads, Bit, Flags;
    SampledFlags(v, cnt);
    assert PcAfter(D.Scan(Flags(v), cnt)) == D.Masked(Flags(v), cnt);
    assert AccessAt(D.Scan(Flags(v), cnt)) == [Clear(EIE, 0x80)];
  }

  lemma UnmaskLeads(c: Chip, d: Chip, v: Byte, cnt: nat, phy: bool)
    requires cnt < 7 && Bit(v, cnt) && Takes(c, Set(EIE, 0x80), d)
    ensures Leads(c, D.Restore(Flags(v), cnt), d, D.Scan(Flags(v), cnt + 1), 1, phy)
  {
    hide Leads, Bit, Flags;
    SampledFlags(v, cnt);
    assert PcAfter(D.Restore(Flags(v), cnt)) == D.Scan(Flags(v), cnt + 1);
    assert AccessAt(D.Restore(Flags(v), cnt)) == [Set(EIE, 0x80)];
  }

  lemma AllSampled(v: Byte)
    ensures D.Sampled(Flags(v))
  {
    hide Bit;
    forall b | b in Flags(v) ensures b in D.ALL {}
  }

  lemma SkipsBit(c: Chip, v: Byte, cnt: nat, phy: bool)
    requires cnt < 8 && !Bit(v, cnt)
    ensures Leads(c, D.Scan(Flags(v), cnt), c, D.Scan(Flags(v), cnt + 1), 1, phy)
  {
    hide Leads, Bit;
    AllSampled(v);
    var p := D.Scan(Flags(v), cnt);
    StepLeads(c, p, phy);
    assert AccessAt(p) == [] && PcAfter(p) == D.Scan(Flags(v), cnt + 1);
  }

  lemma ScanEnds(c: Chip, v: Byte, phy: bool)
    ensures Leads(c, D.Scan(Flags(v), 8), c, D.Head, 1, phy)
  {
    hide Leads, Bit;
    AllSampled(v);
    StepLeads(c, D.Scan(Flags(v), 8), phy);
  }

  // A pending completion is not touched.
  lemma FlagKept(c: Chip, d: Chip)
    requires TxHistory(c, d) && TxSafe(c)
    ensures c.TxFlag() ==> d.TxFlag()
  {
  }

  lemma EvolvesStays(c: Chip, d: Chip, p: D.Pc, phy: bool)
    requires Evolves(c, d)
    ensures Leads(c, p, d, p, 0, phy)
  {
  }

  lemma NoSteps(c: Chip, p: D.Pc, phy: bool)
    ensures Leads(c, p, c, p, 0, phy)
  {
    Unshown(c, c);
    EvolvesStays(c, c, p, phy);
  }

  lemma NothingIsSafe()
    ensures SafeLength(0)
  {
  }

  lemma NothingFollowed(a: Snapshot)
    ensures Followed([], [a], [])
  {
  }

  lemma LinkSelf(c: Chip)
    ensures LinkStays(c, c)
  {
  }

  lemma EventsKeep(c: Chip, d: Chip)
    requires Drift(c, d)
    ensures Evolves(c, d) && LinkStays(c, d) && d.phy == c.phy && d.Mird() == c.Mird() && d.Bsel() == c.Bsel()
    ensures forall b: Bank :: Weak(Port(c, b)) ==> Weak(Port(d, b))
  {
    hide Evolves;
    EvolvesLink(c, d);
  }

  lemma EvolvesLink(c: Chip, d: Chip)
    requires Evolves(c, d)
    ensures LinkStays(c, d)
  {
  }

  // Whether the PHIR read gets through.
  lemma FirstReaches(p: Port, links: nat)
    requires p.chip.Bsel() == 0 && p.bnBank == if links == 0 then BANK_1 else BANK_2
    ensures ReachesMii(p) <==> links == 0
    ensures Weak(p)
  {
  }

  lemma EmptyFlat()
    ensures Flatten([]) == []
  {
  }

  lemma SendsAccounted(c: Chip, data: seq<Byte>)
    requires Sends(c, data)
    ensures c.Sending() && c.Outgoing() == data
  {
  }

  lemma StartedIdle(c: Chip, d: Chip)
    requires Started(c, d)
    ensures !d.Sending() && !d.TxFlag() && d.taken == c.taken && d.Packets() == 0 && d.mii.Idle?
  {
    ZeroBit(3);
  }
}
