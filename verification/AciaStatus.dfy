// What each bit of the status byte means to the processor that reads it, over every run from power-on, in terms of
// the characters received and of those that were lost; and what the bits of the control byte select.

module AciaStatus {
  import opened Bits
  import opened Receiver
  import opened AciaSpec
  import opened AciaRuns

  /**
   * The received characters by their story: the one that waits to be read, whether another has been lost behind it,
   * and whether one was lost behind the character that the last data read took.
   */
  datatype Mail = Mail(waiting: Option<Char>, losing: bool, lost: bool)

  const NO_MAIL := Mail(None, false, false)

  function Arrive(m: Mail, got: Option<Char>): Mail {
    if got.None? then m
    else if m.waiting.None? then m.(waiting := got)
    else m.(losing := true)
  }

  function Mailbox(events: seq<Event>): Mail {
    if events == [] then NO_MAIL else
      var before := events[..|events| - 1];
      match events[|events| - 1]
      case RxTick => Arrive(Mailbox(before), Received(After(POWER_ON, before)))
      case DataRead => Mail(None, false, Mailbox(before).losing)
      case CarrierOff => if After(POWER_ON, before).pins.carrier then NO_MAIL else Mailbox(before)
      case Control(data) => if IsMasterReset(data) then NO_MAIL else Mailbox(before)
      case _ => Mailbox(before)
  }

  ghost predicate Agrees(s: State, m: Mail) {
    && s.inbox.full == m.waiting.Some? && s.inbox.overrunPending == m.losing && s.inbox.overrun == m.lost
    && (m.waiting.Some? ==> s.inbox.rdr == m.waiting.value.value)
    && s.sr.fe == (m.waiting.Some? && m.waiting.value.framingError)
    && s.sr.pe == (m.waiting.Some? && m.waiting.value.parityError)
    && (m.losing ==> m.waiting.Some?)
  }

  lemma {:induction false} MailAgrees(events: seq<Event>)
    ensures Agrees(After(POWER_ON, events), Mailbox(events))
  {
    if events != [] {
      var before, e := events[..|events| - 1], events[|events| - 1];
      MailAgrees(before);
      EveryRunIsConsistent(before);
      hide Consistent, Agrees, Apply, Received, IsMasterReset;
      MailMoves(After(POWER_ON, before), Mailbox(before), e);
    }
  }

  lemma MailMoves(s: State, m: Mail, e: Event)
    requires Consistent(s) && Agrees(s, m)
    ensures Agrees(Apply(s, e),
              match e
              case RxTick => Arrive(m, Received(s))
              case DataRead => Mail(None, false, m.losing)
              case CarrierOff => if s.pins.carrier then NO_MAIL else m
              case Control(data) => if IsMasterReset(data) then NO_MAIL else m
              case _ => m)
  {
    hide ClockTx, RxStep, Received, SerialProtocol, ClockDivisor, RaiseIf, Raise, Clear;
  }

  // ---------------------------------------------------------------- the transmit bit

  /**
   * A reset was made with CTS low while TDRE was clear, and CTS has not been raised since: nothing will ever set
   * TDRE until it is.
   */
  predicate Stuck(events: seq<Event>) {
    if events == [] then false else
      var before := events[..|events| - 1];
      match events[|events| - 1]
      case Control(data) =>
        Stuck(before) ||
        (IsMasterReset(data) && !After(POWER_ON, before).pins.cts && !After(POWER_ON, before).sr.tdre)
      case CtsHigh => false
      case _ => Stuck(before)
  }

  /** TDRE is set exactly when it could be, but for that. */
  ghost predicate TransmitBit(s: State, stuck: bool) {
    && s.sr.tdre == (!s.pins.cts && !s.tx.full && !s.latches.needsReset && !stuck)
    && (stuck ==> !s.pins.cts && !s.tx.full && !s.latches.needsReset)
    && (s.latches.needsReset ==> !s.tx.full)
  }

  lemma {:induction false} TransmitBitFollows(events: seq<Event>)
    ensures TransmitBit(After(POWER_ON, events), Stuck(events))
  {
    if events != [] {
      var before, e := events[..|events| - 1], events[|events| - 1];
      TransmitBitFollows(before);
      EveryRunIsConsistent(before);
      hide Consistent, TransmitBit, Apply, IsMasterReset;
      TransmitBitMoves(After(POWER_ON, before), Stuck(before), e);
    }
  }

  lemma TransmitBitMoves(s: State, stuck: bool, e: Event)
    requires Consistent(s) && TransmitBit(s, stuck)
    ensures TransmitBit(Apply(s, e),
              match e
              case Control(data) => stuck || (IsMasterReset(data) && !s.pins.cts && !s.sr.tdre)
              case CtsHigh => false
              case _ => stuck)
  {
    hide RxStep, Received, SerialProtocol, ClockDivisor, RaiseIf, Raise, Clear, ShiftOut;
    ShiftOutKeepsRegister(s.cfg, s.tx);
  }

  // ---------------------------------------------------------------- the modem lines

  /** CTS as the serial ULA last set it, and whether it has found a carrier. */
  predicate CtsRaised(events: seq<Event>) {
    if events == [] then true else
      match events[|events| - 1]
      case CtsLow => false
      case CtsHigh => true
      case _ => CtsRaised(events[..|events| - 1])
  }

  predicate CarrierThere(events: seq<Event>) {
    if events == [] then false else
      match events[|events| - 1]
      case CarrierOn => true
      case CarrierOff => false
      case _ => CarrierThere(events[..|events| - 1])
  }

  /** What DCD stands for: nothing, a carrier found, or one lost and how much of that has been acknowledged. */
  datatype Story = Untold | Found | Lost | Noticed

  /** A drop is acknowledged by a status read and then a data read that finds the carrier back. */
  function DcdStory(events: seq<Event>): Story {
    if events == [] then Untold else
      var before := events[..|events| - 1];
      var story, carrier := DcdStory(before), CarrierThere(before);
      match events[|events| - 1]
      case Control(data) => if !IsMasterReset(data) then story else if carrier then Found else Untold
      case CarrierOn => if story == Untold && !carrier then Found else story
      case CarrierOff => if carrier then Lost else story
      case StatusRead => if story == Lost then Noticed else story
      case DataRead => if story != Noticed then story else if carrier then Untold else Found
      case _ => story
  }

  ghost predicate LinesAre(s: State, cts: bool, carrier: bool, story: Story) {
    && s.pins.cts == cts && s.pins.carrier == carrier
    && s.sr.dcd == (story != Untold)
    && s.latches.waitStatus == (story == Lost) && s.latches.waitData == (story == Noticed)
  }

  lemma {:induction false} LinesFollow(events: seq<Event>)
    ensures LinesAre(After(POWER_ON, events), CtsRaised(events), CarrierThere(events), DcdStory(events))
  {
    if events != [] {
      var before, e := events[..|events| - 1], events[|events| - 1];
      LinesFollow(before);
      hide LinesAre, Apply, IsMasterReset;
      LinesMove(After(POWER_ON, before), CtsRaised(before), CarrierThere(before), DcdStory(before), e);
    }
  }

  lemma LinesMove(s: State, cts: bool, carrier: bool, story: Story, e: Event)
    requires LinesAre(s, cts, carrier, story)
    ensures LinesAre(Apply(s, e), if e.CtsLow? then false else e.CtsHigh? || cts,
              if e.CarrierOn? then true else carrier && !e.CarrierOff?,
              match e
              case Control(data) => if !IsMasterReset(data) then story else if carrier then Found else Untold
              case CarrierOn => if story == Untold && !carrier then Found else story
              case CarrierOff => if carrier then Lost else story
              case StatusRead => if story == Lost then Noticed else story
              case DataRead => if story != Noticed then story else if carrier then Untold else Found
              case _ => story)
  {
    hide ClockTx, RxStep, Received, SerialProtocol, ClockDivisor, RaiseIf, Raise, Clear, StoreIn;
  }

  // ---------------------------------------------------------------- the byte

  lemma StatusBits(s: State)
    requires Consistent(s)
    ensures var b := StatusByte(s);
            && b < 0x100
            && Bit(b, 0) == s.sr.rdrf && Bit(b, 1) == s.sr.tdre && Bit(b, 2) == s.sr.dcd && Bit(b, 3) == s.sr.cts
            && Bit(b, 4) == s.sr.fe && Bit(b, 5) == s.sr.ovrn && Bit(b, 6) == s.sr.pe && Bit(b, 7) == s.irq.bit
  {
    var b := StatusByte(s);
    assert b == ByteOf(s.irq.bit, s.sr.pe, s.sr.ovrn, s.sr.fe, s.sr.cts, s.sr.dcd, s.sr.tdre, s.sr.rdrf);
    hide StatusByte, Consistent;
    BitsOfByte(s.irq.bit, s.sr.pe, s.sr.ovrn, s.sr.fe, s.sr.cts, s.sr.dcd, s.sr.tdre, s.sr.rdrf);
  }

  /**
   * What a status read tells after every run from power-on. Bit 0 is a waiting character, with its framing error in
   * bit 4 and its parity error in bit 6; bit 5 is a character lost behind the one read last; bit 1 is an empty TDR
   * that can be written; bit 2 has a story behind it, bit 3 is CTS, and bit 7 is the interrupt line.
   */
  lemma StatusTells(events: seq<Event>)
    ensures var s, m := After(POWER_ON, events), Mailbox(events);
            var b := StatusByte(s);
            && b < 0x100
            && Bit(b, 0) == m.waiting.Some?
            && Bit(b, 1) == (!CtsRaised(events) && !s.tx.full && !s.latches.needsReset && !Stuck(events))
            && Bit(b, 2) == (DcdStory(events) != Untold) && Bit(b, 3) == CtsRaised(events)
            && Bit(b, 4) == (m.waiting.Some? && m.waiting.value.framingError)
            && Bit(b, 5) == m.lost
            && Bit(b, 6) == (m.waiting.Some? && m.waiting.value.parityError)
            && Bit(b, 7) == s.irq.asserted
            && (m.waiting.Some? ==> s.inbox.rdr == m.waiting.value.value)
  {
    hide Bit, StatusByte, After, Mailbox, Stuck, CtsRaised, CarrierThere, DcdStory;
    var s := After(POWER_ON, events);
    EveryRunIsConsistent(events);
    MailAgrees(events);
    TransmitBitFollows(events);
    LinesFollow(events);
    StatusBits(s);
  }

  /** While it is stuck no byte is accepted, whatever else happens: a write leaves the chip as it is. */
  lemma StuckRefusesWrites(events: seq<Event>, data: byte)
    requires Stuck(events)
    ensures After(POWER_ON, events + [DataWrite(data)]) == After(POWER_ON, events)
    ensures Stuck(events + [DataWrite(data)])
  {
    TransmitBitFollows(events);
    AfterOneMore(POWER_ON, events, DataWrite(data));
    assert (events + [DataWrite(data)])[..|events|] == events;
  }

  /** Two ways to get there: CTS low before the first reset, and a reset with a byte in the TDR. */
  lemma ResetCanStick(data: byte)
    ensures Stuck([CtsLow] + [Control(3)])
    ensures Stuck(Setup(0x14) + [DataWrite(data)] + [Control(3)])
  {
    assert After(POWER_ON, []) == POWER_ON;
    AfterOneMore(POWER_ON, [], CtsLow);
    assert [] + [CtsLow] == [CtsLow] && ([CtsLow] + [Control(3)])[..1] == [CtsLow];
    var run := Setup(0x14) + [DataWrite(data)];
    SetUp(0x14);
    AfterOneMore(POWER_ON, Setup(0x14), DataWrite(data));
    assert (run + [Control(3)])[..|run|] == run;
  }

  // ---------------------------------------------------------------- the interrupt line

  /** Something rises that an enabled interrupt reports, or it is enabled or read past with that standing. */
  predicate Causes(s: State, e: Event, t: State) {
    || (t.cfg.txInt && !s.sr.tdre && t.sr.tdre)
    || (t.cfg.rxInt && !s.inbox.full && t.inbox.full)
    || (t.cfg.rxInt && s.pins.carrier && !t.pins.carrier)
    || (e.DataRead? && s.inbox.full && t.cfg.txInt && t.sr.tdre)
    || (e.Control? && !IsMasterReset(e.data) && !s.latches.needsReset
        && ((t.cfg.txInt && t.sr.tdre) || (t.cfg.rxInt && (t.inbox.full || t.sr.ovrn))))
  }

  /** A data read, an accepted data write or a master reset. */
  predicate Acknowledges(s: State, e: Event) {
    match e
    case DataRead => true
    case DataWrite(_) => s.sr.tdre
    case Control(data) => IsMasterReset(data)
    case _ => false
  }

  /** The line is asserted after an event if and only if the event causes it, or it was and is not acknowledged. */
  lemma InterruptMoves(s: State, e: Event)
    requires Consistent(s)
    ensures var t := Apply(s, e);
            t.irq.asserted <==> Causes(s, e, t) || (s.irq.asserted && !Acknowledges(s, e))
  {
    hide RxStep, Received, SerialProtocol, ClockDivisor, ShiftOut, IsMasterReset;
    ShiftOutKeepsRegister(s.cfg, s.tx);
  }

  /** A reset stops both halves where they are and raises RTS; the format and the pins stay. */
  lemma ResetStops(events: seq<Event>, data: byte)
    requires IsMasterReset(data)
    ensures var s, t := After(POWER_ON, events), After(POWER_ON, events + [Control(data)]);
            && t.rx.phase == RxIdle && t.tx.phase == Idle && !t.tx.full && !t.inbox.full && t.inbox.rdr == 0
            && !t.irq.asserted && !t.latches.needsReset
            && t.cfg == s.cfg.(rts := true) && t.pins == s.pins
  {
    AfterOneMore(POWER_ON, events, Control(data));
  }

  // ---------------------------------------------------------------- the control byte

  /**
   * Bits 0 and 1 select the divisor; bit 4 eight data bits, bit 3 one stop bit and bit 2 odd parity, but for the two
   * settings of eight bits with bit 3 clear, which have no parity and bit 2 for one stop bit instead.
   */
  lemma ControlSelects(s: State, data: byte)
    requires !IsMasterReset(data)
    ensures var c, plain := Configure(s, data).cfg, Bit(data, 4) && !Bit(data, 3);
            && c.format.wordLength == (if Bit(data, 4) then 8 else 7)
            && c.format.parity == (if plain then NoParity else if Bit(data, 2) then Odd else Even)
            && c.stopBits == (if Bit(data, if plain then 2 else 3) then 1 else 2)
            && c.format.divisor == (if Bit(data, 1) then 64 else if Bit(data, 0) then 16 else 1)
            && c.txInt == (!Bit(data, 6) && Bit(data, 5)) && c.rts == (Bit(data, 6) && !Bit(data, 5))
            && Configure(s, data).tx.brk == (Bit(data, 6) && Bit(data, 5)) && c.rxInt == Bit(data, 7)
            && Configure(s, data).tx.out == (s.tx.out && !(Bit(data, 6) && Bit(data, 5)))
  {
    LowBits(data);
    HighBits(data);
    hide Bit, RaiseIf;
  }

  lemma LowBits(data: byte)
    ensures data % 4 == One(Bit(data, 1)) * 2 + One(Bit(data, 0))
    ensures data / 4 % 8 == One(Bit(data, 4)) * 4 + One(Bit(data, 3)) * 2 + One(Bit(data, 2))
  {
    BitsDown(data);
    hide Bit;
    TwoDigits(data);
    ThreeDigits(data / 4);
    Quarters(data);
  }

  lemma ThreeDigits(n: nat)
    ensures n % 8 == n / 4 % 2 * 4 + n / 2 % 2 * 2 + n % 2
  {
    TwoDigits(n / 2);
    DigitBelow(n);
  }

  lemma DigitBelow(n: nat)
    ensures n / 2 / 2 == n / 4 && n % 8 == n / 2 % 4 * 2 + n % 2
  {
  }

  lemma Quarters(data: nat)
    ensures data / 4 / 4 == data / 16 && data / 4 / 2 == data / 8
  {
  }

  lemma HighBits(data: byte)
    ensures data / 32 % 4 == One(Bit(data, 6)) * 2 + One(Bit(data, 5))
    ensures Bit(data, 7) == (128 <= data)
  {
    TopBit(data);
    BitsUp(data);
    hide Bit;
    TwoDigits(data / 32);
  }

  lemma TwoDigits(n: nat)
    ensures n % 4 == n / 2 % 2 * 2 + n % 2
  {
  }

  lemma BitsUp(data: byte)
    ensures Bit(data, 5) == (data / 32 % 2 == 1) && Bit(data, 6) == (data / 64 % 2 == 1)
  {
    BottomBit(data, 6);
    BottomBit(data, 5);
    assert Right(data, 1) == data / 2;
    assert Right(data, 2) == data / 4;
    assert Right(data, 4) == data / 16;
    assert Right(data, 5) == data / 32;
    assert Right(data, 6) == data / 64;
  }

  lemma BitsDown(data: byte)
    ensures Bit(data, 0) == (data % 2 == 1) && Bit(data, 1) == (data / 2 % 2 == 1)
    ensures Bit(data, 2) == (data / 4 % 2 == 1) && Bit(data, 3) == (data / 8 % 2 == 1)
    ensures Bit(data, 4) == (data / 16 % 2 == 1)
  {
    BottomBit(data, 2);
    BottomBit(data, 3);
    BottomBit(data, 4);
    assert Right(data, 1) == data / 2;
    assert Right(data, 2) == data / 4;
    assert Right(data, 3) == data / 8;
    assert Right(data, 4) == data / 16;
  }

  /** A control byte that is neither a reset nor starts a break. */
  predicate EndsBreak(data: byte) {
    !IsMasterReset(data) && !(Bit(data, 6) && Bit(data, 5))
  }

  /**
   * A break lasts past its end: the byte that ends it leaves the pin low, and low it stays through clocks, reads and
   * changes of CTS until a byte is written to be sent.
   */
  lemma {:induction false} BreakLingers(s: State, breaks: byte, ends: byte, events: seq<Event>)
    requires s.tx.phase == Idle && !s.tx.full && !s.latches.needsReset
    requires !IsMasterReset(breaks) && Bit(breaks, 6) && Bit(breaks, 5) && EndsBreak(ends)
    requires forall i | 0 <= i < |events| :: !events[i].DataWrite? && !events[i].Control?
    ensures var t := After(Configure(Configure(s, breaks), ends), events);
            !t.tx.out && !t.tx.brk && t.tx.phase == Idle && !t.tx.full
  {
    hide Bit, Apply, Configure, IsMasterReset, EndsBreak;
    if events == [] {
      BreakEnds(s, breaks, ends);
    } else {
      BreakLingers(s, breaks, ends, events[..|events| - 1]);
      StaysLow(After(Configure(Configure(s, breaks), ends), events[..|events| - 1]), events[|events| - 1]);
    }
  }

  lemma BreakEnds(s: State, breaks: byte, ends: byte)
    requires s.tx.phase == Idle && !s.tx.full
    requires !IsMasterReset(breaks) && Bit(breaks, 6) && Bit(breaks, 5) && EndsBreak(ends)
    ensures var t := Configure(Configure(s, breaks), ends).tx;
            !t.out && !t.brk && t.phase == Idle && !t.full
  {
    ControlSelects(s, breaks);
    HighBits(breaks);
    ControlSelects(Configure(s, breaks), ends);
    hide Bit, RaiseIf, SerialProtocol, ClockDivisor;
  }

  lemma StaysLow(s: State, e: Event)
    requires !s.tx.out && !s.tx.brk && s.tx.phase == Idle && !s.tx.full && !e.DataWrite? && !e.Control?
    ensures var t := Apply(s, e).tx; !t.out && !t.brk && t.phase == Idle && !t.full
  {
  }

  /** While a break stands the end of every bit time finds the pin low, and the byte in the shift register waits. */
  lemma BreakHolds(s: State)
    requires s.tx.brk
    ensures var t := TxClock(s);
            t.tx == s.tx.(out := s.tx.out && !Shifts(s), ticks := t.tx.ticks) && t.sr == s.sr
  {
  }
}
