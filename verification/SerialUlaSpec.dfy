// The serial ULA with what hangs on it, as a value: clock dividers, cassette port, tape and ACIA.

module SerialUlaSpec {
  import opened Bits
  import opened TapeStreams
  import Chip = AciaSpec

  // ---------------------------------------------------------------- cassette port

  /** The tape behind the port and how far it has been played. */
  datatype Deck =
    | NoTape
    | UefDeck(samples: seq<Sample>, at: nat, lastCarrier: bool)
    | RawDeck(bits: seq<bool>, at: nat, recorder: Recorder)

  function DeckBit(d: Deck): bool {
    match d
    case NoTape => true
    case UefDeck(samples, at, _) => at >= |samples| || samples[at].bit
    case RawDeck(bits, at, _) => at >= |bits| || bits[at]
  }

  function DeckNext(d: Deck): Deck {
    match d
    case NoTape => d
    case UefDeck(samples, at, _) =>
      if at < |samples| then UefDeck(samples, at + 1, samples[at].carrier) else UefDeck(samples, at, false)
    case RawDeck(bits, at, r) => if at < |bits| then RawDeck(bits, at + 1, r) else d
  }

  predicate DeckCarrier(d: Deck) {
    match d
    case NoTape => false
    case UefDeck(_, _, lastCarrier) => lastCarrier
    case RawDeck(bits, at, _) => at < |bits|
  }

  function DeckRecord(d: Deck, bit: bool): Deck {
    match d
    case RawDeck(bits, at, r) => RawDeck(bits, at, Record(r, bit))
    case _ => d
  }

  datatype Port = Port(motorOn: bool, deck: Deck)

  function PortBit(p: Port): bool {
    !p.motorOn || DeckBit(p.deck)
  }

  function PortNext(p: Port): Port {
    p.(deck := if p.motorOn then DeckNext(p.deck) else p.deck)
  }

  predicate PortCarrier(p: Port) {
    p.motorOn && DeckCarrier(p.deck)
  }

  function PortRecord(p: Port, bit: bool): Port {
    p.(deck := if p.motorOn then DeckRecord(p.deck, bit) else p.deck)
  }

  // ---------------------------------------------------------------- serial ULA

  const CARRIER_LOCK := 100

  datatype Sula = Sula(scr: byte, txCounter: nat, txDivider: nat, rxCounter: nat, rxDivider: nat,
                       tapeCounter: nat, currentBit: bool, carrierCount: nat)

  datatype Chain = Chain(sula: Sula, acia: Chip.State, port: Option<Port>)

  predicate MotorOn(scr: byte) {
    scr >= 0x80
  }

  predicate Rs423(scr: byte) {
    scr / 0x40 % 2 == 1
  }

  function Divider(bits: nat): nat {
    match bits % 8
    case 0 => 1
    case 1 => 2
    case 2 => 4
    case 3 => 8
    case 4 => 16
    case 5 => 64
    case 6 => 128
    case _ => 256
  }

  function RxDivider(scr: byte, programmed: nat): nat {
    if Rs423(scr) then programmed else 64
  }

  function Inc32(x: nat): nat {
    if x == 0xffff_ffff then 0 else x + 1
  }

  /** A write to the serial control register. */
  function WriteScr(c: Chain, data: byte): Chain {
    var moved := MotorOn(c.sula.scr) != MotorOn(data);
    var stops := c.port.Some? && moved && !Rs423(data) && !MotorOn(data);
    var cts := if Rs423(data) then Chip.RaiseCts(c.acia) else Chip.ClearCts(c.acia);
    Chain(
      c.sula.(scr := data, txDivider := Divider(data), txCounter := 13 * Divider(data),
              rxDivider := Divider(data / 8), rxCounter := 13 * RxDivider(data, Divider(data / 8)),
              carrierCount := if stops then 0 else c.sula.carrierCount),
      if stops then Chip.DropCarrier(cts) else cts,
      if c.port.Some? && moved then Some(c.port.value.(motorOn := MotorOn(data))) else c.port)
  }

  // ---------------------------------------------------------------- transmit side

  predicate TxDue(s: Sula) {
    Chip.Dec32(s.txCounter) == 0
  }

  function TickTx(c: Chain): Chain {
    var due := TxDue(c.sula);
    var acia := if due then Chip.TxClock(c.acia) else c.acia;
    Chain(
      c.sula.(txCounter := if due then 13 * c.sula.txDivider else Chip.Dec32(c.sula.txCounter)),
      acia,
      if due && c.port.Some? && !Rs423(c.sula.scr) then Some(PortRecord(c.port.value, acia.tx.out)) else c.port)
  }

  // ---------------------------------------------------------------- receive side

  predicate RxDue(s: Sula) {
    Chip.Dec32(s.rxCounter) == 0
  }

  /** A receiver clock that reaches the ACIA. */
  predicate Clocks(c: Chain) {
    RxDue(c.sula) && !Rs423(c.sula.scr) && c.port.Some?
  }

  /** A receiver clock that takes the next bit from the tape. */
  predicate Fetches(c: Chain) {
    Clocks(c) && Inc32(c.sula.tapeCounter) >= c.acia.cfg.format.divisor
  }

  /** Whether the bit just fetched has a carrier. */
  predicate FetchedCarrier(c: Chain) {
    c.port.Some? && PortCarrier(PortNext(c.port.value))
  }

  function LevelNow(c: Chain): bool {
    if Fetches(c) then PortBit(c.port.value) else c.sula.currentBit
  }

  /** Consecutive carrier bits after one more bit. */
  function Counted(count: nat, carrier: bool): nat {
    if carrier then Inc32(count) else 0
  }

  /** The carrier lock: applied with the hundredth carrier bit in a row, dropped with the first bit without. */
  function Lock(acia: Chip.State, count: nat, carrier: bool): Chip.State {
    if carrier && Inc32(count) == CARRIER_LOCK then Chip.ApplyCarrier(acia)
    else if !carrier && count >= CARRIER_LOCK then Chip.DropCarrier(acia)
    else acia
  }

  function Locked(c: Chain): Chip.State {
    if Fetches(c) then Lock(c.acia, c.sula.carrierCount, FetchedCarrier(c)) else c.acia
  }

  function TickRx(c: Chain): Chain {
    var s := c.sula;
    Chain(
      s.(rxCounter := if RxDue(s) then 13 * RxDivider(s.scr, s.rxDivider) else Chip.Dec32(s.rxCounter),
         tapeCounter := if !Clocks(c) then s.tapeCounter else if Fetches(c) then 0 else Inc32(s.tapeCounter),
         currentBit := LevelNow(c),
         carrierCount := if Fetches(c) then Counted(s.carrierCount, FetchedCarrier(c)) else s.carrierCount),
      if Clocks(c) then Chip.RxClock(Chip.SetLine(Locked(c), LevelNow(c))) else c.acia,
      if Fetches(c) then Some(PortNext(c.port.value)) else c.port)
  }

  /** One edge of the 16 MHz clock. */
  function Tick16(c: Chain): Chain {
    TickRx(TickTx(c))
  }
}
