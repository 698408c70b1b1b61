// The 6850 ACIA as a value, and what each of its operations makes of it. The chip's fields are
// grouped by the part of the chip that they belong to; every operation says part by part what it does.

module AciaSpec {
  import opened Bits
  import opened Receiver

  datatype TxPhase = Idle | SendStart | SendBits | SendParity | SendStop1 | SendStop2

  /** The transmitter: data register, shift register, output pin and divided clock. */
  datatype Tx = Tx(tdr: byte, full: bool, shift: nat, count: nat, parityBit: nat, out: bool,
                   ticks: nat, phase: TxPhase, brk: bool)

  /** The receive data register and the overrun latches behind it. */
  datatype Inbox = Inbox(rdr: nat, full: bool, wasRead: bool, overrunPending: bool, overrun: bool)

  /** The status register but for bit 7. */
  datatype Status = Status(pe: bool, ovrn: bool, fe: bool, cts: bool, dcd: bool, tdre: bool, rdrf: bool)

  /** The interrupt line and bit 7 of the status register, which is to follow it. */
  datatype Irq = Irq(asserted: bool, bit: bool)

  /** What the control register selects. */
  datatype Config = Config(format: Format, stopBits: nat, txInt: bool, rxInt: bool, rts: bool, control: byte)

  datatype Pins = Pins(cts: bool, carrier: bool, line: bool)

  /** The power-on reset and the two steps of the DCD clearing sequence. */
  datatype Latches = Latches(needsReset: bool, waitStatus: bool, waitData: bool)

  datatype State = State(cfg: Config, tx: Tx, rx: Rx, inbox: Inbox, sr: Status, irq: Irq, pins: Pins, latches: Latches)

  /** The state that the constructor leaves. */
  const POWER_ON := State(
    Config(Format(1, 7, Even), 2, false, false, true, 0),
    Tx(0, false, 0, 0, 0, true, 1, Idle, false),
    Rx(RxIdle, 0, 0, 0, false, false),
    Inbox(0, false, false, false, false),
    Status(false, false, false, true, false, false, false),
    Irq(false, false),
    Pins(true, false, true),
    Latches(true, false, false))

  function Raise(i: Irq): Irq {
    if i.asserted then i else Irq(true, true)
  }

  function RaiseIf(i: Irq, condition: bool): Irq {
    if condition then Raise(i) else i
  }

  function Clear(i: Irq): Irq {
    if i.asserted then Irq(false, false) else i
  }

  // ---------------------------------------------------------------- control register

  predicate IsMasterReset(data: byte) {
    data % 4 == 3
  }

  function MasterReset(s: State): State {
    State(
      s.cfg.(rts := true),
      s.tx.(tdr := 0, full := false, shift := 0, phase := Idle),
      s.rx.(shift := 0, parityCalc := false, shiftCount := 0, phase := RxIdle),
      Inbox(0, false, false, false, false),
      s.sr.(fe := false, ovrn := false, pe := false, rdrf := false, dcd := s.pins.carrier),
      Clear(s.irq),
      s.pins,
      Latches(false, false, false))
  }

  function ClockDivisor(data: byte): nat {
    match data % 4
    case 0 => 1
    case 1 => 16
    case 2 => 64
    case _ => 16
  }

  /** Word length, stop bits and parity of the eight settings of control bits 2 to 4. */
  datatype Protocol = Protocol(wordLength: nat, stopBits: nat, parity: Parity)

  function SerialProtocol(data: byte): Protocol {
    match data / 4 % 8
    case 0 => Protocol(7, 2, Even)
    case 1 => Protocol(7, 2, Odd)
    case 2 => Protocol(7, 1, Even)
    case 3 => Protocol(7, 1, Odd)
    case 4 => Protocol(8, 2, NoParity)
    case 5 => Protocol(8, 1, NoParity)
    case 6 => Protocol(8, 1, Even)
    case _ => Protocol(8, 1, Odd)
  }

  /** The effect of a control byte that is not a master reset, once the power-on reset is released. */
  function Configure(s: State, data: byte): State {
    var p, bits, divisor := SerialProtocol(data), data / 32 % 4, ClockDivisor(data);
    var rxInt := data >= 0x80;
    var irq := RaiseIf(s.irq, bits == 1 && s.sr.tdre);
    s.(cfg := Config(Format(divisor, p.wordLength, p.parity), p.stopBits, bits == 1, rxInt, bits == 2, data),
       tx := s.tx.(ticks := divisor, brk := bits == 3, out := bits != 3 && s.tx.out),
       irq := RaiseIf(irq, rxInt && (s.inbox.full || s.sr.ovrn)))
  }

  function WriteCtl(s: State, data: byte): State {
    if IsMasterReset(data) then MasterReset(s)
    else if s.latches.needsReset then s
    else Configure(s, data)
  }

  // ---------------------------------------------------------------- register access

  function Flag(on: bool, value: nat): nat {
    if on then value else 0
  }

  /** What a status read puts on the bus. */
  function StatusByte(s: State): nat {
    Flag(s.irq.bit, 0x80) + Flag(s.sr.pe, 0x40) + Flag(s.sr.ovrn, 0x20) + Flag(s.sr.fe, 0x10)
    + Flag(s.sr.cts, 0x08) + Flag(s.sr.dcd, 0x04) + Flag(s.sr.tdre && !s.latches.needsReset, 0x02)
    + Flag(s.sr.rdrf, 0x01)
  }

  function ReadStatus(s: State): State {
    s.(latches := s.latches.(waitStatus := false, waitData := s.latches.waitData || s.latches.waitStatus))
  }

  function ReadRdr(s: State): State {
    var full, pending := s.inbox.full, s.inbox.overrunPending;
    s.(latches := s.latches.(waitData := false),
       inbox := s.inbox.(full := false, wasRead := s.inbox.wasRead || full, overrunPending := false,
                         overrun := pending),
       sr := s.sr.(dcd := s.sr.dcd && !(s.latches.waitData && s.pins.carrier),
                   rdrf := s.sr.rdrf && !full, fe := s.sr.fe && !full, pe := s.sr.pe && !full,
                   ovrn := pending || (s.sr.ovrn && !s.inbox.overrun)),
       irq := RaiseIf(Clear(s.irq), full && s.cfg.txInt && s.sr.tdre))
  }

  function WriteTdr(s: State, data: byte): State {
    if !s.sr.tdre then s else
      s.(tx := s.tx.(tdr := data, full := true), sr := s.sr.(tdre := false), irq := Clear(s.irq).(bit := false))
  }

  // ---------------------------------------------------------------- transmitter

  /** Moving the TDR to the shift register. */
  function Load(cfg: Config, tx: Tx): Tx {
    tx.(shift := tx.tdr, full := false, count := 0, phase := SendStart,
        parityBit := if cfg.format.parity == Odd then 1 else 0)
  }

  /** What one shift makes of the transmitter. */
  function ShiftOut(cfg: Config, tx: Tx): Tx {
    match tx.phase
    case Idle => if tx.full then Load(cfg, tx) else tx
    case SendStart => tx.(out := false, phase := SendBits)
    case SendBits =>
      var bit, count := tx.shift % 2 == 1, Inc8(tx.count);
      tx.(parityBit := if cfg.format.parity != NoParity && bit then (tx.parityBit + 1) % 2 else tx.parityBit,
          out := bit, shift := tx.shift / 2, count := count,
          phase := if count != cfg.format.wordLength then SendBits
                   else if cfg.format.parity != NoParity then SendParity else SendStop1)
    case SendParity => tx.(out := tx.parityBit % 2 == 1, phase := SendStop1)
    case SendStop1 => tx.(out := true, phase := if cfg.stopBits == 2 then SendStop2 else Idle)
    case SendStop2 => tx.(out := true, phase := Idle)
  }

  lemma ShiftIgnoresTicks(cfg: Config, tx: Tx, ticks: nat)
    ensures ShiftOut(cfg, tx.(ticks := ticks)) == ShiftOut(cfg, tx).(ticks := ticks)
  {
  }

  function Dec32(x: nat): nat {
    if x == 0 then 0xffff_ffff else x - 1
  }

  /** Whether this clock ends a bit time. */
  predicate Shifts(s: State) {
    !s.pins.cts && Dec32(s.tx.ticks) == 0
  }

  predicate Loads(s: State) {
    Shifts(s) && !s.tx.brk && s.tx.phase == Idle && s.tx.full
  }

  function ClockTx(s: State): Tx {
    if s.pins.cts then s.tx
    else if !Shifts(s) then s.tx.(ticks := Dec32(s.tx.ticks))
    else (if s.tx.brk then s.tx.(out := false) else ShiftOut(s.cfg, s.tx)).(ticks := s.cfg.format.divisor)
  }

  /** TDRE when the TDR becomes empty: held off by CTS and by the power-on reset. */
  predicate ShowsEmpty(s: State) {
    !s.latches.needsReset && !s.pins.cts
  }

  function TxClock(s: State): State {
    var empty := Loads(s) && ShowsEmpty(s);
    s.(tx := ClockTx(s), sr := s.sr.(tdre := s.sr.tdre || empty), irq := RaiseIf(s.irq, empty && s.cfg.txInt))
  }

  // ---------------------------------------------------------------- receiver

  /** What a clock delivers, if it delivers anything. */
  function Received(s: State): Option<Char> {
    if s.pins.carrier then RxStep(s.cfg.format, s.rx, s.pins.line).got else None
  }

  /** A character that has just been received goes to the RDR, unless the last one is still there. */
  function StoreIn(i: Inbox, got: Option<Char>): Inbox {
    if got.None? then i
    else if i.full then i.(overrunPending := true)
    else i.(rdr := got.value.value, full := true, wasRead := false)
  }

  function Deliver(s: State, got: Option<Char>): State {
    var stored := got.Some? && !s.inbox.full;
    s.(inbox := StoreIn(s.inbox, got),
       sr := s.sr.(rdrf := s.sr.rdrf || stored,
                   fe := s.sr.fe || (stored && got.value.framingError),
                   pe := s.sr.pe || (stored && got.value.parityError)),
       irq := RaiseIf(s.irq, stored && s.cfg.rxInt))
  }

  function RxClock(s: State): State {
    var rx := if s.pins.carrier then RxStep(s.cfg.format, s.rx, s.pins.line).rx else s.rx;
    Deliver(s, Received(s)).(rx := rx)
  }

  function SetLine(s: State, line: bool): State {
    s.(pins := s.pins.(line := line))
  }

  // ---------------------------------------------------------------- modem lines

  function ClearCts(s: State): State {
    var empty := s.pins.cts && !s.tx.full && !s.latches.needsReset;
    s.(pins := s.pins.(cts := false),
       sr := s.sr.(cts := s.sr.cts && !s.pins.cts, tdre := s.sr.tdre || empty),
       irq := RaiseIf(s.irq, empty && s.cfg.txInt))
  }

  function RaiseCts(s: State): State {
    s.(pins := s.pins.(cts := true),
       sr := s.sr.(cts := s.sr.cts || !s.pins.cts, tdre := s.sr.tdre && s.pins.cts))
  }

  function DropCarrier(s: State): State {
    if !s.pins.carrier then s else
      State(
        s.cfg, s.tx, s.rx.(phase := RxIdle, shiftCount := 0, clocks := 0),
        s.inbox.(full := false, overrunPending := false, overrun := false),
        s.sr.(dcd := true, rdrf := false, fe := false, ovrn := false, pe := false),
        RaiseIf(s.irq, s.cfg.rxInt),
        s.pins.(carrier := false),
        s.latches.(waitStatus := true, waitData := false))
  }

  function ApplyCarrier(s: State): State {
    var sets := !s.pins.carrier && !s.latches.waitData && !s.latches.waitStatus;
    s.(pins := s.pins.(carrier := true), sr := s.sr.(dcd := s.sr.dcd || sets))
  }
}
