// How long the transmit side takes over a byte: to the edge of the 16 MHz clock, while no register that times or
// breaks transmission is written.

module TransmitDeadline {
  import opened Bits
  import opened SerialUlaSpec
  import opened CarrierLock
  import opened TransmitClock
  import opened AciaStatus
  import Chip = AciaSpec
  import Receiver
  import opened AciaRuns
  import opened TransmitLedger

  // ---------------------------------------------------------------- in bit times

  /** Bit times from a byte in the TDR of an idle transmitter to the end of its last stop bit. */
  function ByteShifts(cfg: Chip.Config): nat {
    2 + cfg.format.wordLength + (if cfg.format.parity == Receiver.NoParity then 0 else 1) + cfg.stopBits
  }

  /** Those that are left of the byte in the shift register, whose bits are counted modulo 256. */
  function ShiftsLeft(cfg: Chip.Config, tx: Chip.Tx): nat {
    var rest := (if cfg.format.parity == Receiver.NoParity then 0 else 1) + cfg.stopBits;
    match tx.phase
    case Idle => 0
    case SendStart => 2 + (cfg.format.wordLength - tx.count - 1) % 256 + rest
    case SendBits => 1 + (cfg.format.wordLength - tx.count - 1) % 256 + rest
    case SendParity => 1 + cfg.stopBits
    case SendStop1 => cfg.stopBits
    case SendStop2 => 1
  }

  lemma ShiftTakesOne(cfg: Chip.Config, tx: Chip.Tx)
    requires cfg.format.wordLength in {7, 8} && cfg.stopBits in {1, 2} && tx.count < 256
    ensures var t := Chip.ShiftOut(cfg, tx);
            && t.count < 256
            && (tx.phase != Chip.Idle ==> ShiftsLeft(cfg, t) == ShiftsLeft(cfg, tx) - 1)
            && (tx.phase == Chip.Idle && tx.full ==> ShiftsLeft(cfg, t) == ByteShifts(cfg) - 1)
            && (ShiftsLeft(cfg, tx) == 0 <==> tx.phase == Chip.Idle)
  {
    var t := Chip.ShiftOut(cfg, tx);
    if tx.phase == Chip.SendBits {
      CountsDown(cfg.format.wordLength, tx.count);
    }
    hide Inc8;
    if tx.phase == Chip.SendBits {
      assert t.count == Inc8(tx.count);
    }
  }

  lemma CountsDown(length: nat, count: nat)
    requires length in {7, 8} && count < 256
    ensures var next := Inc8(count);
            && next < 256
            && if next == length then (length - count - 1) % 256 == 0
               else (length - next - 1) % 256 == (length - count - 1) % 256 - 1
  {
  }

  /** Bit times until the first m bytes accepted have been sent. */
  function ShiftsTo(l: Ledger, m: nat): nat {
    if m <= |l.sent| then 0
    else (if |l.sent| + |l.shifting| < m then ByteShifts(l.state.cfg) else 0) + ShiftsLeft(l.state.cfg, l.state.tx)
  }

  /** The books of a transmitter that is running: nothing stops it, and no count is out of its width. */
  ghost predicate Running(l: Ledger) {
    Balanced(l) && !l.state.tx.brk && !l.state.pins.cts && l.state.tx.count < 256
  }

  lemma SentWhenNoneLeft(l: Ledger, m: nat)
    requires Running(l) && m <= |l.accepted|
    ensures ShiftsTo(l, m) == 0 <==> m <= |l.sent|
  {
    ShiftTakesOne(l.state.cfg, l.state.tx);
  }

  /** A clock that ends a bit time takes one off. */
  lemma ShiftTick(l: Ledger, m: nat)
    requires Running(l) && m <= |l.accepted| && Chip.Shifts(l.state)
    ensures ShiftsTo(Book(l, TxTick), m) == if ShiftsTo(l, m) == 0 then 0 else ShiftsTo(l, m) - 1
    ensures Book(l, TxTick).state.tx.count < 256
  {
    var s, t := l.state, Book(l, TxTick);
    assert s.cfg.format.wordLength in {7, 8} && s.cfg.stopBits in {1, 2};
    hide Consistent;
    ShiftTakesOne(s.cfg, s.tx);
    SameShifts(s.cfg, Chip.ShiftOut(s.cfg, s.tx), t.state.tx.ticks);
    FinishLeavesOne(s);
    hide Chip.ShiftOut, ShiftsLeft, ByteShifts;
    assert t.state.cfg == s.cfg;
    LengthsMove(l);
  }

  lemma SameShifts(cfg: Chip.Config, tx: Chip.Tx, ticks: nat)
    ensures ShiftsLeft(cfg, tx.(ticks := ticks)) == ShiftsLeft(cfg, tx)
  {
  }

  lemma FinishLeavesOne(s: Chip.State)
    requires Chip.Shifts(s) && !s.tx.brk && s.cfg.stopBits in {1, 2}
    ensures Finishes(s) <==> ShiftsLeft(s.cfg, s.tx) == 1
  {
  }

  lemma LengthsMove(l: Ledger)
    requires Running(l) && Chip.Shifts(l.state)
    ensures var t := Book(l, TxTick);
            && |t.sent| == |l.sent| + (if Finishes(l.state) then 1 else 0)
            && |t.shifting| == (if Finishes(l.state) then 0 else if Chip.Loads(l.state) then 1 else |l.shifting|)
            && |l.accepted| == |l.sent| + |l.shifting| + (if l.state.tx.full then 1 else 0)
            && (Finishes(l.state) ==> |l.shifting| == 1)
  {
    hide Consistent;
  }

  // ---------------------------------------------------------------- in clocks and edges

  /** So many periods, of which the first has only `left` to go. */
  function Beyond(n: nat, period: nat, left: nat): nat {
    if n == 0 then 0 else (n - 1) * period + left
  }

  lemma BeyondFalls(n: nat, period: nat, left: nat)
    requires 0 < n && 1 <= left <= period
    ensures 0 < Beyond(n, period, left)
    ensures left > 1 ==> Beyond(n, period, left - 1) == Beyond(n, period, left) - 1
    ensures left == 1 ==> Beyond(n - 1, period, period) == Beyond(n, period, left) - 1
  {
    if n > 1 {
      assert (n - 1) * period == (n - 2) * period + period;
    }
  }

  lemma BeyondBound(n: nat, period: nat, left: nat, most: nat)
    requires n <= most && left <= period
    ensures Beyond(n, period, left) <= most * period
  {
    if n > 0 {
      assert (n - 1) * period + period == n * period;
      assert most * period == n * period + (most - n) * period;
    }
  }

  /** Transmitter clocks until the first m bytes accepted have been sent. */
  function TicksTo(l: Ledger, m: nat): nat {
    Beyond(ShiftsTo(l, m), l.state.cfg.format.divisor, l.state.tx.ticks)
  }

  /** Edges of the 16 MHz clock until then. */
  function EdgesTo(s: Sula, l: Ledger, m: nat): nat {
    Beyond(TicksTo(l, m), 13 * s.txDivider, s.txCounter)
  }

  function Less(n: nat, taken: nat): nat {
    if n < taken then 0 else n - taken
  }

  lemma WaitTick(l: Ledger, m: nat)
    requires Running(l) && !Chip.Shifts(l.state)
    ensures var t := Book(l, TxTick);
            && t == l.(state := l.state.(tx := l.state.tx.(ticks := l.state.tx.ticks - 1))) && 1 < l.state.tx.ticks
            && ShiftsTo(t, m) == ShiftsTo(l, m)
  {
    SameShifts(l.state.cfg, l.state.tx, l.state.tx.ticks - 1);
  }

  lemma TickRuns(l: Ledger)
    requires Running(l)
    ensures Running(Book(l, TxTick)) && Book(l, TxTick).state.cfg == l.state.cfg
  {
    BookKeepsBalance(l, TxTick);
    ShiftOutKeepsRegister(l.state.cfg, l.state.tx);
    CountStays(l.state);
    hide Consistent, Chip.ShiftOut;
  }

  lemma CountStays(s: Chip.State)
    requires s.tx.count < 256
    ensures Chip.TxClock(s).tx.count < 256
  {
  }

  lemma OneTick(l: Ledger, m: nat)
    requires Running(l) && m <= |l.accepted|
    ensures Running(Book(l, TxTick)) && TicksTo(Book(l, TxTick), m) == Less(TicksTo(l, m), 1)
  {
    TickRuns(l);
    var s, n := l.state, ShiftsTo(l, m);
    assert 1 <= s.tx.ticks <= s.cfg.format.divisor;
    hide Running, Book, ShiftsTo;
    if n > 0 {
      BeyondFalls(n, s.cfg.format.divisor, s.tx.ticks);
    }
    if Chip.Shifts(s) {
      ShiftTick(l, m);
      ReloadsTicks(l);
    } else {
      WaitTick(l, m);
    }
  }

  lemma ReloadsTicks(l: Ledger)
    requires Running(l) && Chip.Shifts(l.state)
    ensures l.state.tx.ticks == 1
    ensures Book(l, TxTick).state.tx.ticks == Book(l, TxTick).state.cfg.format.divisor == l.state.cfg.format.divisor
  {
  }

  /** The events that leave the transmitter and its configuration alone, but for filling the TDR. */
  predicate Quiet(e: Event) {
    e.StatusRead? || e.DataRead? || e.DataWrite? || e.RxTick? || e.Line? || e.CarrierOn? || e.CarrierOff?
  }

  lemma QuietEvent(l: Ledger, e: Event, m: nat)
    requires Running(l) && m <= |l.accepted| && Quiet(e)
    ensures var t := Book(l, e);
            && Running(t) && m <= |t.accepted| && ShiftsTo(t, m) == ShiftsTo(l, m) && TicksTo(t, m) == TicksTo(l, m)
  {
    BookKeepsBalance(l, e);
    QuietLeavesTx(l.state, e);
    hide Consistent, Apply;
  }

  lemma QuietLeavesTx(s: Chip.State, e: Event)
    requires Quiet(e)
    ensures var t := Apply(s, e);
            && t.cfg == s.cfg && t.tx == s.tx.(tdr := t.tx.tdr, full := t.tx.full) && t.pins.cts == s.pins.cts
  {
  }

  ghost predicate AllQuiet(events: seq<Event>) {
    forall i | 0 <= i < |events| :: Quiet(events[i])
  }

  lemma {:induction false} QuietEvents(l: Ledger, events: seq<Event>, m: nat)
    requires Running(l) && m <= |l.accepted| && AllQuiet(events)
    ensures var t := BookAll(l, events); Running(t) && m <= |t.accepted| && TicksTo(t, m) == TicksTo(l, m)
  {
    hide Running, Book, TicksTo, ShiftsTo;
    if events != [] {
      QuietEvents(l, events[..|events| - 1], m);
      QuietEvent(BookAll(l, events[..|events| - 1]), events[|events| - 1], m);
    }
  }

  lemma {:induction false} BookConcat(l: Ledger, a: seq<Event>, b: seq<Event>)
    ensures BookAll(l, a + b) == BookAll(BookAll(l, a), b)
  {
    hide Book;
    if b == [] {
      assert a + b == a;
    } else {
      BookConcat(l, a, b[..|b| - 1]);
      assert (a + b)[..|a + b| - 1] == a + b[..|b| - 1];
    }
  }

  /** The CPU writes neither the SCR nor the ACIA's control register. */
  predicate Calm(a: Act) {
    FromCpu(a) && !a.WriteControl? && (a.Access? ==> !a.e.Control?)
  }

  lemma ReceiveIsQuiet(c: Chain)
    ensures AllQuiet(ReceiveEvents(c))
  {
    hide Clocks, Fetches, LevelNow, FetchedCarrier;
  }

  /** One act, on the ledger and on the divider. */
  lemma CalmAct(c: Chain, a: Act, l: Ledger, m: nat)
    requires Calm(a) && Running(l) && m <= |l.accepted| && 1 <= c.sula.txCounter <= 13 * c.sula.txDivider
    ensures var t, s := BookAll(l, ActEvents(c, a)), Do(c, a).sula;
            && Running(t) && m <= |t.accepted| && 1 <= s.txCounter <= 13 * s.txDivider
            && EdgesTo(s, t, m) == Less(EdgesTo(c.sula, l, m), if a.Edge16? then 1 else 0)
  {
    hide Running, Book, TicksTo, ReceiveEvents, Do;
    CounterMoves(c, a);
    DueAtOne(c.sula);
    match a
    case Edge16 =>
      var due := TransmitEvents(c);
      var t := BookAll(l, due);
      BookConcat(l, due, ReceiveEvents(TickTx(c)));
      ReceiveIsQuiet(TickTx(c));
      EdgeOf(c.sula, l, m);
      QuietEvents(t, ReceiveEvents(TickTx(c)), m);
      SameEdges(Do(c, a).sula, t, BookAll(l, ActEvents(c, a)), m);
    case Access(e) =>
      assert ActEvents(c, a) == [e];
      QuietEvents(l, [e], m);
      SameEdges(c.sula, l, BookAll(l, [e]), m);
    case Insert(_) =>
      NoEvents(l);
  }

  lemma SameEdges(s: Sula, l: Ledger, t: Ledger, m: nat)
    requires TicksTo(t, m) == TicksTo(l, m)
    ensures EdgesTo(s, t, m) == EdgesTo(s, l, m)
  {
  }

  lemma NoEvents(l: Ledger)
    ensures BookAll(l, []) == l
  {
  }

  /** What an edge does, before its receiver events. */
  lemma EdgeOf(s: Sula, l: Ledger, m: nat)
    requires Running(l) && m <= |l.accepted| && 1 <= s.txCounter <= 13 * s.txDivider
    ensures var t := BookAll(l, if TxDue(s) then [TxTick] else []);
            var u := s.(txCounter := if TxDue(s) then 13 * s.txDivider else s.txCounter - 1);
            && Running(t) && m <= |t.accepted| && EdgesTo(u, t, m) == Less(EdgesTo(s, l, m), 1)
  {
    hide Running, TicksTo;
    DueAtOne(s);
    NoEvents(l);
    if TicksTo(l, m) > 0 {
      BeyondFalls(TicksTo(l, m), 13 * s.txDivider, s.txCounter);
    }
    if TxDue(s) {
      assert [TxTick][..0] == [];
      OneTick(l, m);
    }
  }

  ghost predicate AllCalm(acts: seq<Act>) {
    forall i | 0 <= i < |acts| :: Calm(acts[i])
  }

  lemma {:induction false} CalmActs(c: Chain, acts: seq<Act>, l: Ledger, m: nat)
    requires AllCalm(acts) && Running(l) && m <= |l.accepted| && 1 <= c.sula.txCounter <= 13 * c.sula.txDivider
    ensures var t, s := BookAll(l, Events(c, acts)), DoAll(c, acts).sula;
            && Running(t) && m <= |t.accepted| && 1 <= s.txCounter <= 13 * s.txDivider
            && EdgesTo(s, t, m) == Less(EdgesTo(c.sula, l, m), Edges(acts))
  {
    hide Running, Book, EdgesTo, ActEvents, Do, Calm;
    if acts == [] {
      NoEvents(l);
    } else {
      var before, a := acts[..|acts| - 1], acts[|acts| - 1];
      CalmActs(c, before, l, m);
      var now := DoAll(c, before);
      BookConcat(l, Events(c, before), ActEvents(now, a));
      CalmAct(now, a, BookAll(l, Events(c, before)), m);
    }
  }

  lemma NoneLeft(s: Sula, l: Ledger, m: nat)
    requires Running(l) && m <= |l.accepted| && 1 <= s.txCounter
    ensures EdgesTo(s, l, m) == 0 <==> m <= |l.sent|
  {
    SentWhenNoneLeft(l, m);
    assert 1 <= l.state.tx.ticks;
    hide Running, ShiftsTo;
    if ShiftsTo(l, m) > 0 {
      BeyondPositive(ShiftsTo(l, m), l.state.cfg.format.divisor, l.state.tx.ticks);
      BeyondPositive(TicksTo(l, m), 13 * s.txDivider, s.txCounter);
    }
  }

  lemma BeyondPositive(n: nat, period: nat, left: nat)
    requires 0 < n && 0 < left
    ensures 0 < Beyond(n, period, left)
  {
  }

  /**
   * To the edge: with CTS low, no break and neither control register written, the first m bytes accepted have been
   * sent if and only if EdgesTo of the state at the start have gone by, whatever is read, written, received or
   * put in the port meanwhile.
   */
  lemma SentOnTime(c: Chain, acts: seq<Act>, l: Ledger, m: nat)
    requires AllCalm(acts) && l.state == c.acia && Running(l) && m <= |l.accepted|
    requires 1 <= c.sula.txCounter <= 13 * c.sula.txDivider
    ensures m <= |BookAll(l, Events(c, acts)).sent| <==> EdgesTo(c.sula, l, m) <= Edges(acts)
  {
    hide Running, EdgesTo;
    CalmActs(c, acts, l, m);
    NoneLeft(DoAll(c, acts).sula, BookAll(l, Events(c, acts)), m);
  }

  // ---------------------------------------------------------------- the bound

  /** The byte in the shift register was begun in the word length that stands. */
  predicate InWord(s: Chip.State) {
    s.tx.phase in {Chip.SendStart, Chip.SendBits} ==> s.tx.count < s.cfg.format.wordLength
  }

  /** Two bytes less the clock that has already loaded the first. */
  function MostEdges(s: Sula, cfg: Chip.Config): nat {
    (2 * ByteShifts(cfg) - 1) * cfg.format.divisor * (13 * s.txDivider)
  }

  lemma EdgesToBound(s: Sula, l: Ledger, m: nat)
    requires Running(l) && m <= |l.accepted| && InWord(l.state) && s.txCounter <= 13 * s.txDivider
    ensures EdgesTo(s, l, m) <= MostEdges(s, l.state.cfg)
  {
    var cfg, tx := l.state.cfg, l.state.tx;
    assert cfg.format.wordLength in {7, 8} && cfg.stopBits in {1, 2} && tx.ticks <= cfg.format.divisor;
    assert ShiftsLeft(cfg, tx) <= ByteShifts(cfg) - 1;
    assert l.shifting == [] ==> ShiftsLeft(cfg, tx) == 0;
    assert ShiftsTo(l, m) <= 2 * ByteShifts(cfg) - 1;
    hide Running, ShiftsTo, ByteShifts, Balanced, InWord;
    var most := 2 * ByteShifts(cfg) - 1;
    BeyondBound(ShiftsTo(l, m), cfg.format.divisor, tx.ticks, most);
    BeyondBound(TicksTo(l, m), 13 * s.txDivider, s.txCounter, most * cfg.format.divisor);
  }

  /** In cassette mode every byte that the TDR has accepted is fully sent within so many edges. */
  lemma AcceptedIsSent(c: Chain, data: byte, acts: seq<Act>, l: Ledger)
    requires data / 0x40 % 2 == 0 && AllCalm(acts) && l.state == WriteScr(c, data).acia
    requires Balanced(l) && !l.state.tx.brk && InWord(l.state) && l.state.tx.count < 256
    requires (2 * ByteShifts(l.state.cfg) - 1) * l.state.cfg.format.divisor * Period(data) <= Edges(acts)
    ensures |l.accepted| <= |BookAll(l, Events(WriteScr(c, data), acts)).sent|
  {
    hide Balanced, InWord, ByteShifts, Edges, Events, BookAll, EdgesTo;
    var s := WriteScr(c, data);
    CassetteClears(c, data);
    ScrSets(c, data);
    PeriodIsDivider(data);
    hide WriteScr, Period, Divider;
    EdgesToBound(s.sula, l, |l.accepted|);
    SentOnTime(s, acts, l, |l.accepted|);
  }

  lemma CassetteClears(c: Chain, data: byte)
    requires data / 0x40 % 2 == 0
    ensures !WriteScr(c, data).acia.pins.cts
  {
  }

  /** With RS423 selected CTS is high, and nothing is ever sent. */
  lemma {:induction false} Rs423SendsNothing(c: Chain, acts: seq<Act>, l: Ledger)
    requires AllCalm(acts) && l.state.pins.cts
    ensures var t := BookAll(l, Events(c, acts));
            t.state.pins.cts && t.sent == l.sent && t.shifting == l.shifting
  {
    hide ActEvents, Do, Book, Calm;
    if acts == [] {
      NoEvents(l);
    } else {
      var before, a := acts[..|acts| - 1], acts[|acts| - 1];
      Rs423SendsNothing(c, before, l);
      var now := DoAll(c, before);
      BookConcat(l, Events(c, before), ActEvents(now, a));
      CalmEvents(now, a);
      HeldUp(BookAll(l, Events(c, before)), ActEvents(now, a));
    }
  }

  lemma CalmEvents(c: Chain, a: Act)
    requires Calm(a)
    ensures forall i | 0 <= i < |ActEvents(c, a)| :: Quiet(ActEvents(c, a)[i]) || ActEvents(c, a)[i] == TxTick
  {
    hide ReceiveEvents, TxDue, TickTx;
    ReceiveIsQuiet(TickTx(c));
  }

  lemma {:induction false} HeldUp(l: Ledger, events: seq<Event>)
    requires l.state.pins.cts && forall i | 0 <= i < |events| :: Quiet(events[i]) || events[i] == TxTick
    ensures var t := BookAll(l, events); t.state.pins.cts && t.sent == l.sent && t.shifting == l.shifting
  {
    if events != [] {
      var e := events[|events| - 1];
      HeldUp(l, events[..|events| - 1]);
      if Quiet(e) {
        QuietLeavesTx(BookAll(l, events[..|events| - 1]).state, e);
      }
    }
  }

  /**
   * Shortening the word from eight bits to seven with just seven of them sent leaves the count past its end: the
   * byte goes on for a whole turn of the counter.
   */
  lemma WordCutShort(s: Chip.State, data: byte)
    requires s.tx.phase == Chip.SendBits && s.tx.count == 7 && s.cfg.format.wordLength == 8
    requires !s.latches.needsReset && !Chip.IsMasterReset(data)
    ensures var t := Apply(s, Control(data));
            (InWord(t) <==> Bit(data, 4)) && (!Bit(data, 4) ==> 256 < ShiftsLeft(t.cfg, t.tx))
  {
    var t := Apply(s, Control(data));
    ControlSelects(s, data);
    ConfigureKeepsShift(s, data);
    hide Chip.Configure, Bit, Apply;
    ShiftsPast(t.cfg, t.tx);
  }

  lemma ShiftsPast(cfg: Chip.Config, tx: Chip.Tx)
    requires tx.phase == Chip.SendBits && tx.count == 7 && cfg.stopBits in {1, 2}
    ensures cfg.format.wordLength == 7 ==> 256 < ShiftsLeft(cfg, tx)
  {
  }

  lemma ConfigureKeepsShift(s: Chip.State, data: byte)
    requires !s.latches.needsReset && !Chip.IsMasterReset(data)
    ensures var t := Apply(s, Control(data));
            t == Chip.Configure(s, data) && t.tx.phase == s.tx.phase && t.tx.count == s.tx.count
  {
  }
}
