// What the ACIA keeps over every run of bus accesses, clocks and modem-line changes.

module AciaRuns {
  import opened Bits
  import opened Receiver
  import opened AciaSpec

  datatype Event =
    | Control(data: byte)
    | StatusRead
    | DataRead
    | DataWrite(data: byte)
    | TxTick
    | RxTick
    | Line(level: bool)
    | CtsLow
    | CtsHigh
    | CarrierOn
    | CarrierOff

  function Apply(s: State, e: Event): State {
    match e
    case Control(data) => WriteCtl(s, data)
    case StatusRead => ReadStatus(s)
    case DataRead => ReadRdr(s)
    case DataWrite(data) => WriteTdr(s, data)
    case TxTick => TxClock(s)
    case RxTick => RxClock(s)
    case Line(level) => SetLine(s, level)
    case CtsLow => ClearCts(s)
    case CtsHigh => RaiseCts(s)
    case CarrierOn => ApplyCarrier(s)
    case CarrierOff => DropCarrier(s)
  }

  function After(s: State, events: seq<Event>): State {
    if events == [] then s
    else Apply(After(s, events[..|events| - 1]), events[|events| - 1])
  }

  // ---------------------------------------------------------------- the status invariant

  /** How the status bits, the latches and the machinery behind them agree. */
  ghost predicate Consistent(s: State) {
    && (s.irq.bit <==> s.irq.asserted)
    && (s.sr.rdrf <==> s.inbox.full)
    && (s.sr.cts <==> s.pins.cts)
    && (s.sr.ovrn <==> s.inbox.overrun)
    && (s.sr.tdre ==> !s.pins.cts && !s.tx.full && !s.latches.needsReset)
    && (s.sr.fe || s.sr.pe ==> s.sr.rdrf)
    && (s.inbox.overrunPending ==> s.inbox.full)
    && 1 <= s.tx.ticks <= s.cfg.format.divisor
    && ValidFormat(s.cfg.format) && s.cfg.stopBits in {1, 2}
    && (!s.pins.carrier ==> s.rx.phase == RxIdle && !s.inbox.full)
    && (s.latches.waitStatus || s.latches.waitData ==> s.sr.dcd)
    && !(s.latches.waitStatus && s.latches.waitData)
  }

  lemma ShiftOutKeepsRegister(cfg: Config, tx: Tx)
    ensures var t := ShiftOut(cfg, tx); t.full == (tx.full && tx.phase != Idle) && t.brk == tx.brk && t.tdr == tx.tdr
  {
  }

  lemma StepKeepsConsistent(s: State, e: Event)
    requires Consistent(s)
    ensures Consistent(Apply(s, e))
  {
    hide TxClock, RxClock, WriteCtl;
    match e
    case TxTick => TxTickKeepsConsistent(s);
    case RxTick => RxTickKeepsConsistent(s);
    case Control(data) => ControlKeepsConsistent(s, data);
    case _ =>
  }

  lemma TxTickKeepsConsistent(s: State)
    requires Consistent(s)
    ensures Consistent(TxClock(s))
  {
    hide ShiftOut;
    ShiftOutKeepsRegister(s.cfg, s.tx);
  }

  lemma RxTickKeepsConsistent(s: State)
    requires Consistent(s)
    ensures Consistent(RxClock(s))
  {
    hide RxStep;
  }

  lemma ControlKeepsConsistent(s: State, data: byte)
    requires Consistent(s)
    ensures Consistent(WriteCtl(s, data))
  {
  }

  /** From power-on, every run keeps the status register honest. */
  lemma {:induction false} EveryRunIsConsistent(events: seq<Event>)
    ensures Consistent(After(POWER_ON, events))
  {
    if events != [] {
      EveryRunIsConsistent(events[..|events| - 1]);
      StepKeepsConsistent(After(POWER_ON, events[..|events| - 1]), events[|events| - 1]);
    }
  }

  // ---------------------------------------------------------------- the receive data register

  /** The events that may empty the receive data register. */
  predicate Empties(e: Event) {
    e.DataRead? || e.CarrierOff? || (e.Control? && IsMasterReset(e.data))
  }

  /** An unread character is never overwritten, and its error flags stay as they were. */
  lemma {:induction false} UnreadCharacterStays(s: State, events: seq<Event>)
    requires s.inbox.full
    requires forall i | 0 <= i < |events| :: !Empties(events[i])
    ensures var t := After(s, events);
            t.inbox.full && t.inbox.rdr == s.inbox.rdr && t.sr.fe == s.sr.fe && t.sr.pe == s.sr.pe
  {
    if events != [] {
      UnreadCharacterStays(s, events[..|events| - 1]);
      OneEventKeepsCharacter(After(s, events[..|events| - 1]), events[|events| - 1]);
    }
  }

  lemma OneEventKeepsCharacter(s: State, e: Event)
    requires s.inbox.full && !Empties(e)
    ensures var t := Apply(s, e);
            t.inbox.full && t.inbox.rdr == s.inbox.rdr && t.sr.fe == s.sr.fe && t.sr.pe == s.sr.pe
  {
  }

  // ---------------------------------------------------------------- interrupts that get lost

  /** A waiting character asserts IRQ when receive interrupts are enabled. */
  ghost predicate ReceiveInterruptStands(s: State) {
    s.cfg.rxInt && s.inbox.full ==> s.irq.asserted
  }

  /** Exactly one event breaks that: an accepted write to the TDR while a character is waiting. */
  lemma ReceiveInterruptLostExactly(s: State, e: Event)
    requires Consistent(s) && ReceiveInterruptStands(s)
    ensures ReceiveInterruptStands(Apply(s, e)) <==>
            !(e.DataWrite? && s.sr.tdre && s.cfg.rxInt && s.inbox.full)
  {
  }

  /** An empty TDR asserts IRQ when transmit interrupts are enabled. */
  ghost predicate TransmitInterruptStands(s: State) {
    s.cfg.txInt && s.sr.tdre ==> s.irq.asserted
  }

  /** Exactly two events break that: reading an empty RDR, and a master reset. */
  lemma TransmitInterruptLostExactly(s: State, e: Event)
    requires Consistent(s) && TransmitInterruptStands(s)
    ensures TransmitInterruptStands(Apply(s, e)) <==>
            !(s.cfg.txInt && s.sr.tdre &&
              ((e.DataRead? && !s.inbox.full) || (e.Control? && IsMasterReset(e.data))))
  {
  }

  lemma AfterOneMore(s: State, events: seq<Event>, e: Event)
    ensures After(s, events + [e]) == Apply(After(s, events), e)
  {
    assert (events + [e])[..|events|] == events;
  }

  /** So many events of one kind. */
  function Repeat(e: Event, n: nat): seq<Event> {
    if n == 0 then [] else Repeat(e, n - 1) + [e]
  }

  lemma {:induction false} AfterConcat(s: State, a: seq<Event>, b: seq<Event>)
    ensures After(s, a + b) == After(After(s, a), b)
  {
    hide Apply;
    if b == [] {
      assert a + b == a;
    } else {
      AfterConcat(s, a, b[..|b| - 1]);
      assert (a + b)[..|a + b| - 1] == a + b[..|b| - 1];
    }
  }

  /** A master reset from power-on, a control byte, and CTS low. */
  function Setup(control: byte): seq<Event> {
    [Control(3)] + [Control(control)] + [CtsLow]
  }

  lemma SetUp(control: byte)
    requires !IsMasterReset(control)
    ensures After(POWER_ON, Setup(control)) == ClearCts(Configure(MasterReset(POWER_ON), control))
  {
    assert After(POWER_ON, []) == POWER_ON && [] + [Control(3)] == [Control(3)];
    AfterOneMore(POWER_ON, [], Control(3));
    AfterOneMore(POWER_ON, [Control(3)], Control(control));
    AfterOneMore(POWER_ON, [Control(3)] + [Control(control)], CtsLow);
  }

  /** Undivided 8N1 with receive interrupts, and a start bit just seen. */
  function StartSeen(): seq<Event> {
    Setup(0x94) + [CarrierOn] + [Line(false)] + [RxTick] + [Line(true)]
  }

  ghost predicate Receiving(s: State, n: nat) {
    && s.cfg.format == Format(1, 8, NoParity) && s.cfg.rxInt && s.sr.tdre && s.pins.carrier && s.pins.line
    && !s.inbox.full && !s.irq.asserted && s.rx.shiftCount == n && s.rx.phase == if n < 8 then RxData else RxStop
  }

  /** What the setup leaves, as far as the receiver is concerned. */
  lemma SetUpReceives()
    ensures var s := After(POWER_ON, Setup(0x94));
            && s.cfg.format == Format(1, 8, NoParity) && s.cfg.rxInt && s.sr.tdre && !s.irq.asserted
            && !s.inbox.full && s.rx.phase == RxIdle && !s.pins.carrier
  {
    SetUp(0x94);
  }

  lemma StartReceived(s: State)
    requires s.cfg.format == Format(1, 8, NoParity) && s.cfg.rxInt && s.sr.tdre && !s.irq.asserted
    requires !s.inbox.full && s.rx.phase == RxIdle && !s.pins.carrier
    ensures Receiving(Apply(Apply(Apply(Apply(s, CarrierOn), Line(false)), RxTick), Line(true)), 0)
  {
  }

  lemma StartIsSeen()
    ensures Receiving(After(POWER_ON, StartSeen()), 0)
  {
    hide After, Apply, Setup, Receiving;
    SetUpReceives();
    StartReceived(After(POWER_ON, Setup(0x94)));
    AfterOneMore(POWER_ON, Setup(0x94), CarrierOn);
    AfterOneMore(POWER_ON, Setup(0x94) + [CarrierOn], Line(false));
    AfterOneMore(POWER_ON, Setup(0x94) + [CarrierOn] + [Line(false)], RxTick);
    AfterOneMore(POWER_ON, Setup(0x94) + [CarrierOn] + [Line(false)] + [RxTick], Line(true));
  }

  lemma MarkReceived(s: State, n: nat)
    requires Receiving(s, n) && n < 8
    ensures Receiving(Apply(s, RxTick), n + 1)
  {
    hide OrBit;
  }

  lemma {:induction false} MarksReceived(s: State, n: nat)
    requires Receiving(s, 0) && n <= 8
    ensures Receiving(After(s, Repeat(RxTick, n)), n)
  {
    hide Receiving, Apply;
    if n > 0 {
      MarksReceived(s, n - 1);
      AfterOneMore(s, Repeat(RxTick, n - 1), RxTick);
      MarkReceived(After(s, Repeat(RxTick, n - 1)), n - 1);
    }
  }

  lemma StopReceived(s: State)
    requires Receiving(s, 8)
    ensures var t := Apply(s, RxTick);
            t.inbox.full && t.cfg.rxInt && t.sr.tdre && t.irq.asserted
  {
  }

  lemma WriteLosesInterrupt(s: State, data: byte)
    requires s.inbox.full && s.cfg.rxInt && s.sr.tdre && s.irq.asserted
    ensures ReceiveInterruptStands(s) && !ReceiveInterruptStands(Apply(s, DataWrite(data)))
  {
  }

  /** A run from power-on that receives a character, its interrupt standing until something is sent. */
  lemma ReceiveInterruptCanBeLost(data: byte)
    ensures var run := StartSeen() + Repeat(RxTick, 9);
            && After(POWER_ON, run).inbox.full && ReceiveInterruptStands(After(POWER_ON, run))
            && !ReceiveInterruptStands(After(POWER_ON, run + [DataWrite(data)]))
  {
    hide After, Apply, Receiving, StartSeen, ReceiveInterruptStands;
    var s := After(POWER_ON, StartSeen());
    StartIsSeen();
    MarksReceived(s, 8);
    AfterOneMore(s, Repeat(RxTick, 8), RxTick);
    StopReceived(After(s, Repeat(RxTick, 8)));
    AfterConcat(POWER_ON, StartSeen(), Repeat(RxTick, 9));
    AfterOneMore(POWER_ON, StartSeen() + Repeat(RxTick, 9), DataWrite(data));
    WriteLosesInterrupt(After(POWER_ON, StartSeen() + Repeat(RxTick, 9)), data);
  }

  /** A run from power-on that has the transmit interrupt standing, lost by a read or by a reset. */
  lemma TransmitInterruptCanBeLost()
    ensures var run := Setup(0x34);
            && After(POWER_ON, run).irq.asserted && TransmitInterruptStands(After(POWER_ON, run))
            && !TransmitInterruptStands(After(POWER_ON, run + [DataRead]))
            && !TransmitInterruptStands(After(POWER_ON, run + [Control(3)]))
  {
    SetUp(0x34);
    AfterOneMore(POWER_ON, Setup(0x34), DataRead);
    AfterOneMore(POWER_ON, Setup(0x34), Control(3));
  }

  // ---------------------------------------------------------------- the DCD latch

  ghost predicate NoMasterReset(events: seq<Event>) {
    forall i | 0 <= i < |events| && events[i].Control? :: !IsMasterReset(events[i].data)
  }

  /** No reset, and the carrier does not drop: it is switched off only where there is none. */
  ghost predicate Undisturbed(s: State, events: seq<Event>) {
    && NoMasterReset(events)
    && forall i | 0 <= i < |events| && events[i] == CarrierOff :: !After(s, events[..i]).pins.carrier
  }

  /** Event i is the first status read, and event j the first data read after it. */
  ghost predicate FirstReads(events: seq<Event>, i: int, j: int) {
    && 0 <= i < j < |events| && events[i] == StatusRead && events[j] == DataRead
    && (forall k | 0 <= k < i :: events[k] != StatusRead)
    && (forall k | i < k < j :: events[k] != DataRead)
  }

  /** How far the two reads that acknowledge a drop have come. */
  datatype Clearing = NoStatus | NoData(status: nat) | Complete(status: nat, data: nat)

  function ReadsSoFar(events: seq<Event>): Clearing {
    if events == [] then NoStatus else
      var n := |events| - 1;
      var before := ReadsSoFar(events[..n]);
      if before.NoStatus? && events[n] == StatusRead then NoData(n)
      else if before.NoData? && events[n] == DataRead then Complete(before.status, n)
      else before
  }

  lemma {:induction false} ReadsAreFirst(events: seq<Event>)
    ensures match ReadsSoFar(events)
            case NoStatus => forall k | 0 <= k < |events| :: events[k] != StatusRead
            case NoData(i) =>
              && i < |events| && events[i] == StatusRead && (forall k | 0 <= k < i :: events[k] != StatusRead)
              && (forall k | i < k < |events| :: events[k] != DataRead)
            case Complete(i, j) => FirstReads(events, i, j)
  {
    if events != [] {
      ReadsAreFirst(events[..|events| - 1]);
    }
  }

  /** The latches of a drop after the given reads; what the data read found decides. */
  ghost predicate Latched(s: State, events: seq<Event>) {
    var t := After(s, events);
    match ReadsSoFar(events)
    case NoStatus => t.sr.dcd && t.latches.waitStatus && !t.latches.waitData
    case NoData(_) => t.sr.dcd && !t.latches.waitStatus && t.latches.waitData
    case Complete(_, j) =>
      && !t.latches.waitStatus && !t.latches.waitData && (!t.sr.dcd ==> t.pins.carrier)
      && j < |events| && (t.sr.dcd <==> !After(s, events[..j]).pins.carrier)
  }

  lemma {:induction false} LatchesFollow(s: State, events: seq<Event>)
    requires s.sr.dcd && s.latches.waitStatus && !s.latches.waitData && Undisturbed(s, events)
    ensures Latched(s, events)
  {
    if events != [] {
      hide Apply, Latched, Undisturbed;
      var n := |events| - 1;
      LessUndisturbed(s, events);
      LatchesFollow(s, events[..n]);
      LatchStep(s, events[..n], events[n]);
      assert events == events[..n] + [events[n]];
    }
  }

  lemma LessUndisturbed(s: State, events: seq<Event>)
    requires events != [] && Undisturbed(s, events)
    ensures var n := |events| - 1;
            && Undisturbed(s, events[..n]) && (events[n].Control? ==> !IsMasterReset(events[n].data))
            && (events[n] == CarrierOff ==> !After(s, events[..n]).pins.carrier)
  {
    hide After, IsMasterReset;
    var n := |events| - 1;
    forall i | 0 <= i < n && events[..n][i] == CarrierOff ensures !After(s, events[..n][..i]).pins.carrier {
      assert events[..n][..i] == events[..i] && events[i] == CarrierOff;
    }
    forall i | 0 <= i < n && events[..n][i].Control? ensures !IsMasterReset(events[..n][i].data) {
      assert events[i] == events[..n][i];
    }
  }

  lemma LatchStep(s: State, events: seq<Event>, e: Event)
    requires Latched(s, events) && (e.Control? ==> !IsMasterReset(e.data))
    requires e == CarrierOff ==> !After(s, events).pins.carrier
    ensures Latched(s, events + [e])
  {
    hide After;
    AfterOneMore(s, events, e);
    assert (events + [e])[..|events|] == events;
    var r := ReadsSoFar(events);
    DcdStep(After(s, events), e);
    if r.Complete? && r.data < |events| {
      assert (events + [e])[..r.data] == events[..r.data];
    }
  }

  /** What one event does to the latches, when it is neither a drop nor a reset. */
  lemma DcdStep(s: State, e: Event)
    requires (e.Control? ==> !IsMasterReset(e.data)) && (e == CarrierOff ==> !s.pins.carrier)
    ensures var t := Apply(s, e);
            && t.latches.waitStatus == (s.latches.waitStatus && e != StatusRead)
            && t.latches.waitData == (if e == StatusRead then s.latches.waitData || s.latches.waitStatus
                                      else s.latches.waitData && e != DataRead)
            && (s.pins.carrier ==> t.pins.carrier)
            && (s.sr.dcd || s.pins.carrier ==>
                  t.sr.dcd == (s.sr.dcd && !(e == DataRead && s.latches.waitData && s.pins.carrier)))
  {
  }

  /** Some first reads found the carrier back. */
  ghost predicate Acknowledged(s: State, events: seq<Event>) {
    exists i, j :: FirstReads(events, i, j) && After(s, events[..j]).pins.carrier
  }

  /**
   * After the last drop of the carrier in a run, and with no reset since, DCD is clear if and only if the first data
   * read after the first status read found the carrier present.
   */
  lemma DcdNeedsAcknowledging(s: State, events: seq<Event>, drop: nat)
    requires drop < |events| && events[drop] == CarrierOff && After(s, events[..drop]).pins.carrier
    requires Undisturbed(After(s, events[..drop + 1]), events[drop + 1..])
    ensures !After(s, events).sr.dcd <==> Acknowledged(After(s, events[..drop + 1]), events[drop + 1..])
  {
    hide Undisturbed, Apply, Latched, Acknowledged;
    var d, rest := After(s, events[..drop + 1]), events[drop + 1..];
    assert events[..drop + 1] == events[..drop] + [CarrierOff];
    AfterOneMore(s, events[..drop], CarrierOff);
    AfterConcat(s, events[..drop + 1], rest);
    assert events == events[..drop + 1] + rest;
    hide After;
    DropLatches(After(s, events[..drop]));
    LatchesFollow(d, rest);
    FirstReadsDecide(d, rest);
  }

  lemma DropLatches(s: State)
    requires s.pins.carrier
    ensures var t := Apply(s, CarrierOff); t.sr.dcd && t.latches.waitStatus && !t.latches.waitData
  {
  }

  lemma FirstReadsDecide(s: State, events: seq<Event>)
    requires Latched(s, events)
    ensures !After(s, events).sr.dcd <==> Acknowledged(s, events)
  {
    hide After;
    ReadsAreFirst(events);
    if Acknowledged(s, events) {
      var i, j :| FirstReads(events, i, j) && After(s, events[..j]).pins.carrier;
      OnlyFirstReads(events, i, j);
    }
  }

  lemma OnlyFirstReads(events: seq<Event>, i: int, j: int)
    requires FirstReads(events, i, j)
    ensures ReadsSoFar(events) == Complete(i, j)
  {
    ReadsAreFirst(events);
    hide ReadsSoFar;
    assert events[i] == StatusRead && events[j] == DataRead;
  }

  /**
   * Acknowledging a drop before the carrier is back spends the sequence: DCD then stays set whatever follows, until
   * the carrier drops again or the chip is reset.
   */
  lemma EarlyAcknowledgementSticks(s: State, events: seq<Event>, i: nat, j: nat)
    requires s.pins.carrier && Undisturbed(DropCarrier(s), events) && FirstReads(events, i, j)
    requires !After(DropCarrier(s), events[..j]).pins.carrier
    ensures After(DropCarrier(s), events).sr.dcd
  {
    LatchesFollow(DropCarrier(s), events);
    hide After, DropCarrier, Undisturbed;
    OnlyFirstReads(events, i, j);
  }
}
