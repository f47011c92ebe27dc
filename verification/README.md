# ENC28J60 driver: model and proofs

A Dafny model of a bare-metal MQTT client on an STM32: its ENC28J60 Ethernet driver running
beside the chip it drives, the main loop that serves the chip's interrupts and keeps the broker
connection alive, and the loops of the CMSIS headers it is built on. `dafny verify
dfyconfig.toml` checks everything.

## What is modelled

- **The chip** (`Enc28j60.dfy`) is a value: 4 x 32 registers of which the last five are shared, 8 KB
  of memory, the ERXRDPT latch, PHY registers behind the MII, and an SPI port that takes one
  byte at a time. Frames arrive, receptions break off, transmissions end and the link changes
  whenever the network side likes; histories record what was accepted, what went out, every event,
  and the falling edges of the INT pin.
- **The driver** (`Driver.dfy`, `Reception.dfy`, `Transmission.dfy`) is a class whose methods send the
  C code's SPI bytes in the C code's order. Its two packet structs are one array, because they
  are packed and adjacent and can overflow: the one into its own last field, the other into
  whatever lies behind it. During a receive, a transmit or an interrupt handler the network side
  acts between any two SPI transactions, the bank switch and the transfer of one register access
  included, and between any two bytes of a buffer transfer; the PHY read of a link change is one
  piece.
- **The bank cache** (`BankCache.dfy`) is studied over sequences of register accesses, as written
  and with the assignment to `bnBank` moved to every switch.
- **The network interface** (`Netif.dfy`) is the link output routine, all interrupt handlers and
  the INTIE toggles, runs that mix them in any order, and the dispatcher's pass over EIR as the C
  code makes it.
- **The interrupt protocol** (`Dispatch.dfy`) is a state machine of single actions: chip events and
  the service routine may strike anywhere, inside `enc28j60intCounter--` and between the test of
  the volatile counter and its load too. `MainLoop.dfy` is the loop itself, with its own variables
  and control flow; each of its passes is a run of that machine. `FlagView.dfy` and `ChipRuns.dfy` tie
  the machine to the chip: single accesses and events are its steps, and whole routines of the
  byte-level driver, with the network side acting inside them, are its runs, event for event and
  edge for edge. `Wakeup.dfy` says what the counter counts and what a wrap of it costs,
  `Draining.dfy` when the dispatcher comes to rest.
- **The connection** (`Connection.dfy`): DHCP, DNS, MQTT, the callbacks and the 32-bit clock.
- **CMSIS** (`CacheMaintenance.dfy`, `Nvic.dfy`, `BitReverse.dfy`): cache maintenance by address and by
  set and way, packed interrupt priorities, priority grouping, and software `__RBIT`.

## What came out

Where the code does not do what it was meant to, the model does what the code does, and a
theorem says exactly when it matters.

- **Bank 0 is not cached.** `enc28j60_bankChange` leaves `bnBank` alone when it goes to bank 0, so
  the next access to the bank selected before is carried out in bank 0.
  `BankCache.MissesExactlyWhenStale` gives the exact histories. With the assignment hoisted the file is
  indistinguishable from a flat one (`BankCache.HoistedRefinesFlat`), if a soft reset resets the
  cache too.
- **PHCON1 gets a wrong value at start-up.** The first PHY read of `enc2860_phyInit` is such a
  misdirected access (`BankCache.StartUpMisses`); PHCON1 receives PHID2 with bit 8 set
  (`Driver.Device.StartDriver`).
- **Frames of 1501 to 1517 bytes cost the driver its place.** The guard is `>= 1518`, the buffer
  holds 1500 bytes, and the next-packet pointer lies right behind it
  (`Reception.PointerKeptExactlyForSafeLengths`). MACON3 also gets HFRMEN set, so such frames are let
  through.
- **A soft reset does not touch the cache either.** It counts as an access to bank 0 in the exact
  histories above; start-up is right whatever bank was cached before (`Driver.Device.StartDriver`).
- **An interrupt inside the decrement leaves no trace in the counter** (`Wakeup.CounterExactly`). It does
  no harm: EIR is read after every decrement.
- **A wake-up can be lost only to the counter's wrap** from 2^32 - 1. A run strands the program if
  and only if the counter wraps in it with the pin low and nothing left in the pass to see to it
  (`Wakeup.StrandedExactly`, point by point in `Wakeup.WrapLosesWakeup`); a run of nothing but reception
  errors, arrivals, interrupts and passes leads there (`Wakeup.WrapWitness`), and after it EIR is
  never read again (`Wakeup.StrandedForever`).
- **WOLIF is never cleared.** A quiet schedule drains if and only if WOLIF is down and no wake-up is
  lost on the way (`Draining.DrainsExactly`). The driver enables no wake-up filter, and no event of
  the chip model raises WOLIF.
- **Only the first link change is read.** The PHIR read reaches the PHY at the first link change
  since start-up and goes astray at every later one, as bank 2 is then the cached bank; LINKIF is
  never cleared after that (`Netif.Interface.LinkInterrupt`, `Netif.Interface.Run`).
- **Frames of more than 1500 bytes spill over the transmit buffer.** What lies behind it is spared if
  and only if a frame has no more than 1500 bytes (`Netif.SparedExactly`); with an MTU of 1500 the
  stack hands over up to 1514. Such a frame is still sent whole (`Netif.Interface.Translate`).
- **Cache maintenance by address survives its own overflow.** `op_size` may exceed the 32-bit signed
  range at the start; the loop still touches exactly the right lines
  (`CacheMaintenance.MaintainByAddr`).

## Assumptions about the chip

From the Microchip data sheet DS39662 as far as the driver relies on it: MAC and MII registers
answer one dummy byte late and ignore bit-field commands; ERXRDPTL is latched until ERXRDPTH is
written; writing ERXST moves the write pointer; a received frame is preceded by the address of
the next one and four status bytes, and the next one starts at an even address; reception never
writes the byte at ERXRDPT; a soft reset does not reach the PHY registers; reading PHIR clears
LINKIF; PKTIF follows EPKTCNT, and bit 7 of EIR reads 0; MACLCON2 is 0x37 after a reset and
ECON2.AUTOINC set. The INT pin falls when INTIE and an enabled flag meet, and each fall is
latched once by the EXTI line.

## Model

| member | source | states |
|---|---|---|
| Ring.StoreKeepsTiles | enc28j60_driver/Src/enc28j60_hwd.c:413-424 | a frame stored in the space ERXRDPT leaves free joins the end of the queue of unread frames, which go on tiling the ring from the driver's pointer to the chip's, across the wrap |
| Ring.DropKeepsTiles | enc28j60_driver/Src/enc28j60_hwd.c:376-382 | following the next-pointer of the oldest frame leaves the others tiling the ring |
| Ring.HeadBytes | enc28j60_driver/Src/enc28j60_hwd.c:354-366 | from the driver's pointer on lie next-pointer, status vector and payload of the oldest frame, byte by byte round the ring |
| Ring.RecordsAppend | enc28j60_driver/Src/enc28j60_hwd.c:354-366 | the bytes of a longer queue are those of the shorter one followed by the new frame's at the address where the shorter one ends |
| BankCache.WeakInvariant | enc28j60_driver/Src/enc28j60_hwd.c:77-117 | hardware bank = cached bank or hardware bank = 0 survives every access; which bank is selected and cached afterwards; an access misses exactly when its bank is cached, is not bank 0, and the hardware stands in bank 0 |
| BankCache.Reaches | enc28j60_driver/Src/enc28j60_hwd.c:127-148 | an access to a bank that is not stale is the flat access |
| BankCache.HoistedRefinesFlat | enc28j60_driver/Src/enc28j60_hwd.c:109-116 | with the cache updated on every switch, any sequence of accesses and soft resets gives the answers and the registers of a flat file, the cache being reset with the chip |
| BankCache.MissesExactlyWhenStale | enc28j60_driver/Src/enc28j60_hwd.c:77-148 | as written, access i of a run is misdirected if and only if it names no common register and an earlier access to its bank was followed by a bank-0 access or a soft reset with no third bank in between |
| BankCache.HitsRefineFlat | enc28j60_driver/Src/enc28j60_hwd.c:77-148 | a run without such an access is indistinguishable from a flat file |
| BankCache.MissWritesBankZero | enc28j60_driver/Src/enc28j60_hwd.c:109-116 | from any chip in bank 0, a run in which the second write to MIREGADR changes a bank-0 register instead, where a flat file would have taken it |
| BankCache.StartUpMisses | enc28j60_driver/Src/enc28j60_hwd.c:232-270 | in the driver's own accesses from the soft reset on, whatever the chip was before and however long its clock and PHY take, the first access of the PHY set-up is misdirected and leaves MIREGADR unwritten |
| Driver.Device.BankChange | enc28j60_driver/Src/enc28j60_hwd.c:77-117 | the two SPI transactions select the bank and leave everything else, and the cache is updated for banks other than 0 only |
| Driver.Device.ReadMacMIIReg | enc28j60_driver/Src/enc28j60_hwd.c:127-138 | byte by byte it is the two-byte register read of the access model, in whatever bank is really selected |
| Driver.Device.ReadEtherReg | enc28j60_driver/Src/enc28j60_hwd.c:476-486 | the same for the one-byte read |
| Driver.Device.WriteReg | enc28j60_driver/Src/enc28j60_hwd.c:140-148 | the same for the write |
| Driver.Device.BitFieldSet | enc28j60_driver/Src/enc28j60_hwd.c:182-190 | the same for bit-field set, which MAC and MII registers ignore |
| Driver.Device.BitFieldClear | enc28j60_driver/Src/enc28j60_hwd.c:192-200 | the same for bit-field clear |
| Driver.ReadTransaction | enc28j60_driver/Src/enc28j60_hwd.c:476-486 | the SPI bytes of a one-byte read deliver the register, or the dummy byte of a MAC or MII register |
| Driver.ReadTwiceTransaction | enc28j60_driver/Src/enc28j60_hwd.c:127-138 | the SPI bytes of a two-byte read deliver the register from every bank, polling it twice where no dummy byte is sent |
| Driver.WriteTransaction | enc28j60_driver/Src/enc28j60_hwd.c:140-148 | the SPI bytes of a write are the register write in the selected bank |
| Driver.Device.AwaitMii | enc28j60_driver/Src/enc28j60_hwd.c:497-497 | the poll of MISTAT.BUSY ends, and ends with the MII operation done |
| Driver.Device.ReadPhyReg | enc28j60_driver/Src/enc28j60_hwd.c:488-509 | the whole PHY read, step by step, is the function PhyReadEffect is about |
| Driver.Device.WritePhyReg | enc28j60_driver/Src/enc28j60_hwd.c:157-163 | the whole PHY write is the function PhyWriteEffect is about |
| Driver.PhyReadEffect | enc28j60_driver/Src/enc28j60_hwd.c:488-509 | a PHY read returns the register and leaves MICMD.MIIRD clear; gone astray it returns the previous answer; what it leaves alone |
| Driver.PhyWriteEffect | enc28j60_driver/Src/enc28j60_hwd.c:157-163 | a PHY write changes that register only; gone astray it changes none, but spoils DMA registers of bank 0 |
| Driver.PhyRoundTrip | enc28j60_driver/Src/enc28j60_hwd.c:157-163 | write then read returns any 16-bit value if and only if the write reaches bank 2 or the value was there already; the other PHY registers keep theirs |
| Driver.Device.SoftReset | enc28j60_driver/Src/enc28j60_hwd.c:150-155 | the chip is reset, the cached bank is not; it is the soft reset of the access model |
| Driver.Device.AwaitClock | enc28j60_driver/Src/enc28j60_hwd.c:237-238 | the poll of ESTAT ends with the clock stable, the hardware in bank 0 and nothing else changed |
| Driver.Device.SetUpBuffers | enc28j60_driver/Src/enc28j60_hwd.c:245-268 | the twelve writes give the buffer layout, the write pointer at the start and the free pointer at the end of the ring |
| Driver.Device.PhyInit | enc28j60_driver/Src/enc28j60_hwd.c:62-71 | PHCON1 and PHIE get their bits; what PHCON1 gets when the first read goes astray |
| Driver.Device.MacInit | enc28j60_driver/Src/enc28j60_hwd.c:33-60 | the MAC registers hold the intended values, station address included, and nothing outside banks 2 and 3 changes; that these names are the chip's cells is in `Driver.MacCells` |
| Driver.MacCells | enc28j60_driver/Src/enc28j60_hwd.c:33-60 | the cells themselves: after a reset MACON1, MACON3, MABBIPG, MAIPGL, MACLCON2 and MAMXFL hold 0x0D, 0xF5, 0x15, 0x12, 0x37 and 0x05DC at 0x40, 0x42, 0x44, 0x46, 0x49 and 0x4A, and the address bytes lie at 0x60 to 0x65 in the chip's order |
| Driver.MacAccess | enc28j60_driver/Src/enc28j60_hwd.c:33-60 | an access to one plain MAC register reaches it and leaves all the others |
| Driver.Device.StartDriver | enc28j60_driver/Src/enc28j60_hwd.c:232-286 | whatever the chip was before and whatever bank was cached: every cell start-up sets, by its number and its value (buffer layout, filters, enables, MAC, station address), the PHY registers as they really end up, the ring empty, bank 1 cached and bank 0 selected |
| Driver.StartUpOver | enc28j60_driver/Src/enc28j60_hwd.c:232-286 | the stages of start-up do not undo one another |
| Reception.PlayAllKeeps | enc28j60_driver/Src/enc28j60_hwd.c:413-424 | whatever the network side does between two accesses, the ring invariant holds, unread frames keep their bytes, and the transmit area keeps what is in it |
| Reception.StreamStep | enc28j60_driver/Src/enc28j60_hwd.c:368-411 | the next byte off the SPI bus is the next byte of the oldest frame, across the wrap at 0x17FF |
| Reception.StreamInto | enc28j60_driver/Src/enc28j60_hwd.c:374-408 | a buffer read interleaved with arrivals fetches consecutive bytes of the oldest frame and touches no other byte of the store |
| Reception.EtherReceive | enc28j60_driver/Src/enc28j60_hwd.c:350-424 | the oldest frame is returned with header, status and bytes intact or rejected, exactly at 1518; the pointer and ERXRDPT move past it for every safe length, rejected ones included, and what they become for the others; the network side acts at just the points it is given, each in turn |
| Reception.PointerKeptExactlyForSafeLengths | enc28j60_driver/Src/enc28j60_hwd.c:396-408 | the pointer ends up on the next frame, whatever the frame contains, if and only if the length is at most 1500 or at least 1518 |
| Reception.Overlap | enc28j60_driver/Inc/enc28j60_hwd.h:326-341 | which bytes of the payload become the pointer, by the layout of the packed struct |
| Reception.FreePointer | enc28j60_driver/Src/enc28j60_hwd.c:413-424 | as long as the driver keeps its place ERXRDPT is odd, in [0, 0x17FF] and the ring predecessor of the pointer |
| Reception.ReleaseIsOdd | enc28j60_driver/Src/enc28j60_hwd.c:413-420 | the value computed for ERXRDPT is that predecessor, odd, and never 0 - 1 |
| Reception.ReleaseKeeps | enc28j60_driver/Src/enc28j60_hwd.c:423-424 | writing the predecessor of the next frame to ERXRDPT frees the oldest one and nothing else |
| Reception.CountDown | enc28j60_driver/Src/enc28j60_hwd.c:573-583 | clearing PKTIF counts one packet down and leaves AUTOINC and every other register |
| Reception.HandlePacket | Core/Src/main.c:339-364 | one call of the handler serves exactly the oldest frame, with the outcome its length and the pool decide, and counts one down, received or rejected; on what the chip shows it is a run of the machine from the masked bit to the stack's input |
| Reception.Approach | enc28j60_driver/Src/enc28j60_hwd.c:140-148 | the bank switch that begins an access, with the network side acting before and after it, keeps the ring and leaves the chip in bank 0; what the chip then is, exactly |
| Reception.RunReceiver | Core/Src/main.c:339-364 | any interleaving of network activity and handler calls, job by job: the network does just what the job says, a call serves the oldest frame if and only if one is there; frames come out once each, in order, intact, as many as there are calls or pending frames, and accepted = consumed + EPKTCNT throughout |
| Reception.RunFromStart | enc28j60_driver/Src/enc28j60_hwd.c:232-286 | the same from power-up, the first chip of the run being the started one; wherever such a run stands the ring invariant holds and ERXRDPT is odd, right before the driver's pointer |
| Transmission.FillByte | enc28j60_driver/Src/enc28j60_hwd.c:311-328 | each byte written to the buffer lands behind the previous one and not in the receive ring |
| Transmission.LoadFrame | enc28j60_driver/Src/enc28j60_hwd.c:300-332 | with arrivals in between: control byte at ETXST, payload behind it, ETXND on its last byte |
| Transmission.Launch | enc28j60_driver/Src/enc28j60_hwd.c:344-345 | setting TXRTS sends exactly the loaded payload and keeps the ring |
| Transmission.EtherTransmit | enc28j60_driver/Src/enc28j60_hwd.c:300-348 | on return what the chip sends is the payload, the status vector stays below 0x2000, the receive ring holds, TXIE and INTIE are set; on what the chip shows it is a run of the machine through the stages of a transmission |
| Transmission.HousekeepingKeeps | enc28j60_driver/Src/enc28j60_hwd.c:573-595 | clearing the error and DMA flags, INTIE off and on, and the link-change enable off disturb neither the receive ring nor a transmission under way |
| Transmission.PhyKeeps | Core/Src/main.c:328-332 | nor does the PHIR read of a link change, even gone astray |
| Netif.FlattenSplit | Core/Src/main.c:658-663 | after k buffers of a chain the copy is the concatenation of the first k payloads |
| Netif.Interface.CopyChain | Core/Src/main.c:658-663 | the copy loop leaves the concatenation of all payloads from the start of the transmit buffer on, past its end if need be, and changes nothing else |
| Netif.SparedExactly | Core/Src/main.c:658-663 | what lies behind the buffer is left alone, whatever the frame contains, if and only if the frame has at most 1500 bytes |
| Netif.Interface.Translate | Core/Src/main.c:651-678 | refused exactly when busy; the buffer holds the concatenation; sent exactly when its length is tot_len, otherwise nothing changes in the chip and the busy flag; on what the chip shows a send is a run of the machine from where it was called |
| Netif.Interface.Answer | Core/Src/main.c:352-359 | while the stack has a packet at most one of its replies is sent: the first whose lengths agree, if the interface is free; the others change nothing |
| Netif.Interface.TransmitInterrupt | Core/Src/main.c:322-326 | acknowledging a completion frees the interface, and is the machine's run of that handler |
| Netif.Interface.PacketInterrupt | Core/Src/main.c:339-364 | the packet handler serves the oldest frame with the outcome its length and the pool decide, and does not disturb a transmission under way |
| Netif.Interface.LinkInterrupt | Core/Src/main.c:328-332 | the PHIR read reaches the PHY if and only if this is the first link change since start-up; otherwise it returns the answer of an earlier read and LINKIF stays up |
| Netif.Interface.Dispatch | Core/Src/main.c:296-371 | the byte-level pass over EIR, with the network side acting between its SPI transactions: what is read, that a packet is served if and only if the sample shows one, which replies are sent, what becomes of bTxBusy, all that the network side did; on what the chip shows it is a run of the machine from the reading of EIR to the loop head in which the chip does only what the network side did and INT falls as often; and after a pass without events no flag is left up but wake-on-LAN and, unless it is the first, the link change |
| Netif.Interface.Run | Core/Src/main.c:299-371 | over any run of all handlers, INTIE toggles and sends, job by job what each makes of the interface; frames come out once each, in order, intact; what was accepted for sending went out once each, in order, the last perhaps still under way; bTxBusy stands for a frame under way or a completion not acknowledged; after the first link change LINKIF is never cleared |
| Netif.Interface.constructor | enc28j60_driver/Src/enc28j60_hwd.c:232-286 | start-up establishes the invariant of such runs, and the chip shows the machine's initial state, so that what is said of runs of the machine is said of this chip |
| Dispatch.StaticKept | Core/Src/main.c:291-372 | every action of chip, service routine and program, wrapping or not, keeps transmit exclusion, packet count and enables |
| Dispatch.InvKept | Core/Src/main.c:291-372 | and, unless it loses a wake-up, that a low pin is going to be noticed |
| Dispatch.NoLostWakeup | Core/Src/main.c:291-372 | in every run without such a loss, at the loop head with INT low, the counter is positive or an edge is latched |
| Wakeup.WrapLosesWakeup | Core/Src/main.c:601-608 | for every point of the program at which the service routine may find the counter at 2^32 - 1, whether the wrap strands the program |
| Wakeup.StrandedExactly | Core/Src/main.c:291-372 | a run from start-up ends stranded if and only if such a wrap occurred in it |
| Wakeup.StrandedForever | Core/Src/main.c:291-372 | a stranded program never reads EIR again, whatever chip and network do |
| Wakeup.WrapWitness | Core/Src/main.c:601-608 | a run from start-up with no steps but reception errors, arrivals, interrupts and the program's own reaches the loop head with the counter at 2^32 - 1, an edge latched and the pin low, and the next interrupt strands it |
| Wakeup.PassEarns | Core/Src/main.c:299-371 | a pass that serves RXERIF and a packet while both come up again pays one wake-up and earns two, which is how the counter climbs |
| Wakeup.CounterExactly | Core/Src/main.c:291-296 | over any run the counter is, modulo 2^32, the interrupts that struck outside its decrement less the decrements: one between load and store leaves no trace in it; each decrement is followed by one reading of EIR |
| Dispatch.TransmitExclusion | Core/Src/main.c:651-678 | in every run, wraps included, a frame under way means busy outside the sending routine, and busy means a frame under way or a completion pending or just acknowledged |
| Dispatch.PacketConservation | enc28j60_driver/Src/enc28j60_hwd.c:573-583 | in every run accepted = received + EPKTCNT, PKTDEC once per receive and never at zero |
| Draining.Descent | Core/Src/main.c:291-372 | every action of a quiet run, wrapping interrupts included, lowers a lexicographic rank, although a pass can raise the counter |
| Draining.StuckIsDrained | Core/Src/main.c:291-372 | when nothing can act and no wake-up was lost, no packet is counted, no enabled flag is up, no frame under way, the counter is zero |
| Draining.Drains | Core/Src/main.c:291-372 | every quiet schedule without WOLIF and without a lost wake-up comes to that state |
| Draining.DrainsExactly | Core/Src/main.c:317-320 | a quiet schedule drains if and only if WOLIF is down and no wake-up is lost on the way |
| Draining.StrandedTrace | Core/Src/main.c:291-372 | once lost, a wake-up keeps the program from draining for ever |
| FlagView.StepIsAccess | enc28j60_driver/Src/enc28j60_hwd.c:573-595 | each access to EIE, EIR, ECON1 or ECON2 with which the dispatcher or a transmission takes a step does to the chip what the step does to the machine |
| FlagView.SampleIsPending | Core/Src/main.c:296-296 | what the program reads from EIR is the machine's set of pending flags |
| FlagView.LinkReadIsStep | Core/Src/main.c:328-332 | LINKIF is cleared exactly if the PHIR read reaches the PHY |
| FlagView.PlayIsStep | enc28j60_driver/Inc/enc28j60_hwd.h:46-55 | each event of the network side raises the flag it should, or counts a packet: it is a step of the machine, or none |
| ChipRuns.StepLeads | enc28j60_driver/Src/enc28j60_hwd.c:573-595 | wherever the program stands, its next access leads the chip to what the machine's next step shows, with no event and with a falling edge of INT exactly where the machine has one |
| ChipRuns.PlayEvolves | enc28j60_driver/Inc/enc28j60_hwd.h:46-55 | an event of the network side is one step of the machine's chip, the one it should be, or shows nowhere, wherever the program stands |
| ChipRuns.LeadsTwice | Core/Src/main.c:291-372 | changes of the chip that are runs of the machine follow on one another: the steps of the program, the events and the falling edges of INT add up |
| ChipRuns.LinkLeads | Core/Src/main.c:328-332 | the link-change handler, network side included, is the machine's run of it |
| ChipRuns.PassSettles | Core/Src/main.c:296-371 | a pass leaves a chip that fits the machine fitting; if the network side did nothing in it, the error, completion and DMA flags are all down afterwards, and the link change if its PHIR read got through |
| ChipRuns.StartedIsInitial | enc28j60_driver/Src/enc28j60_hwd.c:232-286 | the started chip shows the machine's initial state, and fits a state of the machine before the reading of EIR |
| MainLoop.Program.Pass | Core/Src/main.c:291-372 | a pass of the loop, with anything before each of its moves, is a run of the machine in which exactly what the world does there and what the program does take place; it reads EIR once or leaves the counter at zero; how many frames it sends and packets it takes, and what becomes of bTxBusy, by what it found; at its end the busy-flag and packet-count properties hold of the program's own variables, and unless a wake-up was lost a low pin is going to be noticed |
| MainLoop.Program.ScanBits | Core/Src/main.c:299-371 | the scan over the bits, INTIE off and on around each, goes from the sample back to the head; what each bit does to busy flag and counts, in ascending order |
| MainLoop.ScannedAll | Core/Src/main.c:299-371 | because a completion is handled before the packet, replies can be sent in the pass that finds it |
| MainLoop.WeavesOn | Core/Src/main.c:601-608 | what has happened is the program's moves with, before each, as much of what the chip and the service routine want as can happen there |
| MainLoop.Program.Take | Core/Src/main.c:291-293 | the test of the volatile counter, its load and its store, with the service routine between them, are the machine's |
| MainLoop.Program.Translate | Core/Src/main.c:651-678 | the sending steps from the loop head or from the input routine: a frame is accepted if and only if the interface is free, which is then busy |
| Connection.InvKept | Core/Src/main.c:236-289 | every pass, tick and callback keeps the invariant |
| Connection.ConnectionRuns | Core/Src/main.c:236-289 | in every run the broker's name is asked for once and first, and if and only if DHCP supplied an address at some pass; the address comes second, and if and only if an answer was ours; attempts come after it and more than 3000 true ticks apart, between a successful one and the next the connection went down, and between two subscriptions lies a successful attempt, each subscription right behind a connection coming up |
| Connection.SeenExactly | Core/Src/main.c:236-289 | what a run does is exactly what its inputs call for: each question, attempt and subscription is told from the history so far, without the program's variables |
| Connection.AskedExactly | Core/Src/main.c:236-250 | the name is asked for if and only if DHCP has supplied an address at some pass |
| Connection.AnsweredExactly | Core/Src/main.c:686-691 | the address is there if and only if a DNS answer was ours |
| Connection.TurnedAlways | Core/Src/main.c:255-270 | between a successful attempt and the next one the connection has gone down |
| Connection.AttemptExactly | Core/Src/main.c:257-270 | an attempt is made if and only if more than 3000 ticks have passed, while the clock has not gone round since the last; never earlier in any case |
| Connection.ElapsedTime | lwip-2.2.1/contrib/ports/STM32F401re/src/sys_arch.c:4-11 | the wrapped difference never exceeds the true one and equals it below 2^32 |
| Connection.Client.Tick | lwip-2.2.1/contrib/ports/STM32F401re/src/sys_arch.c:9-11 | the program's clock follows true time modulo 2^32 |
| Connection.Client.Pass | Core/Src/main.c:236-289 | the switch on the program's variables is the machine's step, and what it asks of the network stack is the mark that step leaves |
| Connection.Client.IpObtained | Core/Src/main.c:686-691 | the DNS callback is the machine's step |
| Connection.Client.MqttCallback | Core/Src/main.c:693-708 | the MQTT callback is the machine's step for every status; it hangs exactly for the statuses it does not know |
| Connection.HungExactly | Core/Src/main.c:703-705 | a run hangs if and only if a callback with an unknown status occurs in it, and only the clock moves after that |
| CacheMaintenance.MaintainByAddr | Drivers/CMSIS/Include/cachel1_armv7.h:115-134 | the writes hit exactly the 32-byte lines overlapping [addr, addr + size), each once, for every address and every signed size |
| CacheMaintenance.WritesAreExact | Drivers/CMSIS/Include/cachel1_armv7.h:328-347 | why: the addresses step through consecutive lines from the unaligned start |
| CacheMaintenance.SizeStep | Drivers/CMSIS/Include/cachel1_armv7.h:358-377 | an overflowed remaining size is right again after one step |
| CacheMaintenance.SweepSetWay | Drivers/CMSIS/Include/cachel1_armv7.h:155-166 | the nested post-decrement loops end and write the operands of the sweep, in order |
| CacheMaintenance.SweepVisitsOnce | Drivers/CMSIS/Include/cachel1_armv7.h:197-212 | the sweep visits each pair of set and way in [0, sets] x [0, ways] once and no other |
| CacheMaintenance.OperandsDistinct | Drivers/CMSIS/Include/cachel1_armv7.h:155-166 | the written operands tell all pairs apart if and only if sets <= 511 and ways <= 3 |
| CacheMaintenance.FieldsBack | Drivers/CMSIS/Include/cachel1_armv7.h:155-166 | the set is read back from bits 5 to 13 of an operand and the way from bits 30 and 31 |
| Nvic.LaneReadsBack | Drivers/CMSIS/Include/core_armv8mbl.h:1646-1681 | a priority written to a byte lane is read back modulo 2^PRIO_BITS |
| Nvic.LaneHolds | Drivers/CMSIS/Include/core_armv8mbl.h:1646-1658 | the byte written to the lane is the priority's low PRIO_BITS bits in its top bits |
| Nvic.LaneKeepsOthers | Drivers/CMSIS/Include/core_armv8mbl.h:1646-1658 | the other three lanes of the word keep theirs |
| Nvic.PlacesDiffer | Drivers/CMSIS/Include/core_armv8mbl.h:1436-1438 | no two interrupts share a register and a lane, wrapping subtraction of the exception index included |
| Nvic.PlaceIsByte | Drivers/CMSIS/Include/core_armv8mbl.h:1436-1438 | the registers are an array of bytes: interrupt n has byte n, system exception n byte n - 8 |
| Nvic.WriteThenRead | Drivers/CMSIS/Include/core_armv8mbl.h:1646-1681 | get after set, for the same and for every other interrupt |
| Nvic.Controller.SetPriority | Drivers/CMSIS/Include/core_armv8mbl.h:1646-1658 | the packed words behave like a map from interrupts to priorities |
| Nvic.Controller.SetAll | Drivers/CMSIS/Include/core_armv8mbl.h:1646-1681 | after any sequence of writes each interrupt has the last priority written to it |
| Nvic.BitsSplit | Drivers/CMSIS/Include/core_armv8mbl.h:1695-1707 | preemption and sub-priority bits add up to PRIO_BITS in every branch, the wrapping one included |
| Nvic.BinaryPoint | Drivers/CMSIS/Include/core_armv8mbl.h:1722-1733 | the parts of a priority by the register byte alone: with g the group's low three bits, preemption is what lies above bit max(g + 1, 8 - PRIO_BITS) - 1, sub-priority the rest |
| Nvic.EncodeFits | Drivers/CMSIS/Include/core_armv8mbl.h:1695-1707 | an encoded priority never exceeds PRIO_BITS bits |
| Nvic.Decode | Drivers/CMSIS/Include/core_armv8mbl.h:1722-1733 | preemption and sub-priority are cut at the binary point; encoding the two gives the priority back modulo 2^PRIO_BITS |
| Nvic.DecodeEncode | Drivers/CMSIS/Include/core_armv8mbl.h:1695-1733 | decoding an encoded pair gives both parts, masked to their fields |
| Nvic.EncodeDecode | Drivers/CMSIS/Include/core_armv8mbl.h:1695-1733 | encoding a decoded priority gives it back modulo 2^PRIO_BITS |
| Nvic.SmallIsImplemented | Drivers/CMSIS/Include/core_armv8mbl.h:1695-1733 | which is the priority itself below 2^PRIO_BITS |
| BitReverse.Rbit | Drivers/CMSIS/Include/cmsis_gcc.h:373-394 | the loop with its early exit and its last shift gives the 32-bit reversal of every input |
| BitReverse.ReversedBit | Drivers/CMSIS/Include/cmsis_gcc.h:373-394 | bit k of the reversal is bit n - 1 - k of the value |
| BitReverse.Involution | Drivers/CMSIS/Include/cmsis_gcc.h:373-394 | reversing twice gives the value back |

## Left out

- Logging, the UART, clock and GPIO set-up, fault handlers: output and board plumbing.
- The HAL's SPI functions and their error returns: the SPI port is the chip's byte stream.
- The inside of lwIP (DHCP, DNS, MQTT, the pbuf pool): its answers and callbacks are inputs or events. `publishIncoming` and the lwIP timers are not modelled.
- The printing of the receive status flags in `enc28j60_etherReceive`, and the PHY status getters: one mask each.
- `fncPtrDelayFunc` has no effect in the model; the number of polls an MII operation takes is a constant of the chip.
- Inside the register accesses of start-up and of the PHY no event strikes, nor inside one SPI transaction of a register access.
- Netif.Interface.CopyChain: requires that there is memory behind the buffer for a longer chain, as `Netif.Interface.Translate` does; what the program keeps there is not modelled.
- Netif.Interface.Translate: requires that the frame, its control byte and its status vector fit the chip's 2 KB behind the receive ring, which is 2040 bytes of frame; the stack sends no more than 1514.
- Netif.Interface.LinkInterrupt: no event strikes inside the PHIR read itself.
- Netif.Interface.Dispatch: ends at a received frame of 1501 to 1517 bytes, before the stack gets it.
- Netif.Interface.Run: takes chains as `Netif.Interface.Translate` does; ends at a received frame of 1501 to 1517 bytes, because the pointer is lost from there on.
- Reception.RunReceiver: ends there too; the PKTDEC for that frame is issued without the network side acting inside it.
- Reception.EtherReceive: is called with a frame pending, as the main loop calls it only for PKTIF; what a call on an empty ring reads is not modelled.
- Connection.Client.Pass: leaves out the message published every tenth tick while connected; no MQTT callback strikes inside `mqtt_client_connect` itself (lwip-2.2.1/src/apps/mqtt/mqtt.c sets the connection's state on its way out), and one clock tick is the 500 that `sys_now_increment` adds.
- Connection.Client.IpObtained: the broker's address is not modelled; a failed lookup passes a null address, and the C code then copies whatever the word at address 0 holds.
- MainLoop.Program.Pass: what a step does in the chip is kept to flags, counts and TXRTS; the same pass on the bytes, from the reading of EIR on, is `Netif.Interface.Dispatch`, which has neither the counter nor the service routine.
- MainLoop.Program.Translate: has neither the copy nor the comparison with tot_len, which are in `Netif.Interface.Translate`; a send refused for its length changes nothing it looks at.
- Some C functions are several methods here (buffer layout, MAC set-up, receive, transmit), cut where one C function does several things.
- CacheMaintenance.MaintainByAddr: one method stands for the four routines that differ in the register they write; barriers are left out. CacheMaintenance.SweepSetWay stands for the whole-cache loops in the same way; Drivers/CMSIS/Include/cachel1_armv7.h is written for several compilers and the variants agree.
- Nvic: priority grouping registers, pending and enable bits, and vector table access are not modelled.
