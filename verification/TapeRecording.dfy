// What a raw tape in the cassette port records of the bytes that are sent: the port hears the transmit pin once a
// transmitter clock, whatever the ACIA divides that clock by.

module TapeRecording {
  import opened Bits
  import opened Receiver
  import opened TapeStreams
  import opened SerialUlaSpec
  import opened CarrierLock
  import Clock = TransmitClock
  import Deadline = TransmitDeadline
  import Chip = AciaSpec
  import opened AciaRuns
  import opened TransmitLedger
  import Link = SerialLink

  // ---------------------------------------------------------------- the recorder beside the books

  /** The recorder after an event: it hears the pin as a transmitter clock leaves it. */
  function Hear(l: Ledger, r: Recorder, e: Event): Recorder {
    if e.TxTick? then Record(r, Book(l, e).state.tx.out) else r
  }

  function HearAll(l: Ledger, r: Recorder, events: seq<Event>): Recorder {
    if events == [] then r
    else Hear(BookAll(l, events[..|events| - 1]), HearAll(l, r, events[..|events| - 1]), events[|events| - 1])
  }

  /** The position in a frame that the transmitter has put on the line: 0 before the start bit, 1 for it, and so on. */
  function Put(cfg: Chip.Config, tx: Chip.Tx): nat {
    match tx.phase
    case SendStart => 0
    case SendBits => tx.count + 1
    case SendParity => cfg.format.wordLength + 1
    case SendStop1 => StopIndex(cfg.format)
    case _ => StopIndex(cfg.format) + 1
  }

  /** The formats of the eight settings of the control register. */
  ghost predicate Selectable(f: Format) {
    ValidFormat(f) && (f.wordLength == 7 ==> f.parity != NoParity)
  }

  ghost predicate Sending(l: Ledger) {
    Deadline.Running(l) && Selectable(l.state.cfg.format)
  }

  // ---------------------------------------------------------------- divided by one: bit for bit

  /** The first k levels after a start bit, as the number that a recorder gathers. */
  function Gathered(f: Format, b: nat, k: nat): nat {
    if k == 0 then 0 else OrBit(Gathered(f, b, k - 1), FrameBit(f, b, k), k - 1)
  }

  /** What is recorded of a byte: the eight levels after its start bit. */
  function Heard(f: Format, b: nat): nat {
    Gathered(f, b, 8)
  }

  function HeardAll(f: Format, bytes: seq<byte>): seq<nat> {
    if bytes == [] then [] else HeardAll(f, bytes[..|bytes| - 1]) + [Heard(f, bytes[|bytes| - 1])]
  }

  /** The recorder when p levels of a byte have been heard. */
  predicate RecorderAt(f: Format, b: nat, p: nat, heard: seq<nat>, r: Recorder) {
    if p == 0 then r.phase == -1 && r.recorded == heard
    else if p <= 9 then r == Recorder(p - 1, Gathered(f, b, p - 1), heard)
    else r.phase == -1 && r.recorded == heard + [Heard(f, b)]
  }

  lemma RecorderMoves(f: Format, b: nat, p: nat, heard: seq<nat>, r: Recorder)
    requires Selectable(f) && RecorderAt(f, b, p, heard, r) && p <= StopIndex(f)
    ensures RecorderAt(f, b, p + 1, heard, Record(r, FrameBit(f, b, p)))
  {
    hide OrBit;
    if 1 <= p <= 8 {
      GatheredOr(f, b, p);
    }
  }

  lemma GatheredOr(f: Format, b: nat, p: nat)
    requires 1 <= p <= 8
    ensures Gathered(f, b, p)
         == if FrameBit(f, b, p) then OrBit(Gathered(f, b, p - 1), true, p - 1) else Gathered(f, b, p - 1)
  {
  }

  /** Divided by one, the recorder is where the transmitter is. */
  ghost predicate HearsBits(l: Ledger, r: Recorder) {
    var cfg, tx := l.state.cfg, l.state.tx;
    var heard := HeardAll(cfg.format, l.sent);
    if l.shifting == [] then tx.out && r.phase == -1 && r.recorded == heard
    else
      && Link.TxAt(cfg, l.shifting[0], tx, Put(cfg, tx))
      && RecorderAt(cfg.format, l.shifting[0], Put(cfg, tx), heard, r)
  }

  lemma TickHeardIdle(l: Ledger, r: Recorder)
    requires Sending(l) && l.state.cfg.format.divisor == 1 && l.shifting == [] && HearsBits(l, r)
    ensures HearsBits(Book(l, TxTick), Hear(l, r, TxTick))
  {
    hide FrameBit, HeardAll;
  }

  /** A shift within a byte: both move on by one level. */
  lemma ShiftHeard(cfg: Chip.Config, b: nat, tx: Chip.Tx, heard: seq<nat>, r: Recorder)
    requires Selectable(cfg.format) && tx.phase != Chip.Idle && Put(cfg, tx) <= StopIndex(cfg.format)
    requires Link.TxAt(cfg, b, tx, Put(cfg, tx)) && RecorderAt(cfg.format, b, Put(cfg, tx), heard, r)
    ensures var t, p := Chip.ShiftOut(cfg, tx), Put(cfg, tx) + 1;
            Put(cfg, t) == p && Link.TxAt(cfg, b, t, p) && RecorderAt(cfg.format, b, p, heard, Record(r, t.out))
  {
    var p := Put(cfg, tx);
    Link.ShiftPutsNextBit(cfg, b, tx, p);
    hide RecorderAt;
    RecorderMoves(cfg.format, b, p, heard, r);
  }

  lemma AnyTicks(cfg: Chip.Config, b: nat, tx: Chip.Tx, ticks: nat, p: nat)
    ensures Put(cfg, tx.(ticks := ticks)) == Put(cfg, tx)
    ensures Link.TxAt(cfg, b, tx.(ticks := ticks), p) == Link.TxAt(cfg, b, tx, p)
  {
  }

  lemma HeardMore(f: Format, sent: seq<byte>, b: byte)
    ensures HeardAll(f, sent + [b]) == HeardAll(f, sent) + [Heard(f, b)]
  {
    assert (sent + [b])[..|sent|] == sent;
  }

  /** What a clock does to the books of a transmitter in a byte. */
  lemma ByteBooks(l: Ledger)
    requires Sending(l) && l.state.cfg.format.divisor == 1 && l.shifting != []
    ensures var m, s := Book(l, TxTick), l.state;
            && s.tx.phase != Chip.Idle && |l.shifting| == 1
            && m.state.cfg == s.cfg && m.state.tx == Chip.ShiftOut(s.cfg, s.tx).(ticks := 1)
            && (Finishes(s) <==> s.tx.phase == Chip.SendStop2 || (s.tx.phase == Chip.SendStop1 && s.cfg.stopBits == 1))
            && m.sent == (if Finishes(s) then l.sent + l.shifting else l.sent)
            && m.shifting == (if Finishes(s) then [] else l.shifting)
  {
  }

  lemma TickHeardSending(l: Ledger, r: Recorder)
    requires Sending(l) && l.state.cfg.format.divisor == 1 && l.shifting != [] && HearsBits(l, r)
    ensures HearsBits(Book(l, TxTick), Hear(l, r, TxTick))
  {
    var cfg, tx := l.state.cfg, l.state.tx;
    var heard, t := HeardAll(cfg.format, l.sent), Chip.ShiftOut(cfg, tx);
    ByteBooks(l);
    var b := l.shifting[0];
    assert l.shifting == [b];
    HeardMore(cfg.format, l.sent, b);
    hide Sending, Book, Finishes, FrameBit, HeardAll, Gathered;
    if Put(cfg, tx) <= StopIndex(cfg.format) {
      assert Selectable(cfg.format) by { FormatOf(l); }
      ShiftHeard(cfg, b, tx, heard, r);
      AnyTicks(cfg, b, t, 1, Put(cfg, tx) + 1);
    }
    FormatOf(l);
  }

  lemma FormatOf(l: Ledger)
    requires Sending(l)
    ensures Selectable(l.state.cfg.format) && l.state.cfg.stopBits in {1, 2}
  {
  }

  // ---------------------------------------------------------------- divided by sixteen or sixty-four

  /** How many clocks the recorder has taken levels for, from the first start bit that it saw. */
  function Taken(r: Recorder): int {
    10 * |r.recorded| + r.phase + 1
  }

  /** Clocks for which the line has been at this byte, counted to twenty. */
  function Beats(cfg: Chip.Config, tx: Chip.Tx): int {
    var on := cfg.format.divisor - tx.ticks + 1;
    if Put(cfg, tx) == 0 then 0
    else if Put(cfg, tx) == 1 then (if on < 20 then on else 20)
    else if Put(cfg, tx) == 2 && cfg.format.divisor + on < 20 then cfg.format.divisor + on
    else 20
  }

  /** Divided, each start bit alone is heard as a whole byte of zeros and the beginning of another. */
  ghost predicate HearsSlowly(l: Ledger, r: Recorder) {
    var cfg, tx := l.state.cfg, l.state.tx;
    && -1 <= r.phase <= 8
    && (tx.phase == Chip.SendStart ==> tx.count == 0)
    && (tx.phase == Chip.SendBits ==> tx.count < cfg.format.wordLength)
    && if l.shifting == [] || Put(cfg, tx) == 0 then
         tx.out && 20 * |l.sent| <= Taken(r) && (l.sent == [] ==> Taken(r) == 0)
       else
         && 20 * |l.sent| + Beats(cfg, tx) <= Taken(r)
         && (Put(cfg, tx) == 1 ==> !tx.out)
         && (Put(cfg, tx) == 1 && l.sent == [] ==> Taken(r) == cfg.format.divisor - tx.ticks + 1)
  }

  /** A level is taken unless the recorder waits for a start bit and the line is high. */
  lemma TakenMoves(r: Recorder, bit: bool)
    requires -1 <= r.phase <= 8
    ensures var t := Record(r, bit);
            && -1 <= t.phase <= 8
            && Taken(t) == Taken(r) + if r.phase == -1 && bit then 0 else 1
    ensures r.phase == -1 <==> Taken(r) % 10 == 0
  {
  }

  /** A clock within a bit time. */
  lemma WaitHeard(l: Ledger, r: Recorder)
    requires Sending(l) && l.state.cfg.format.divisor in {16, 64} && HearsSlowly(l, r) && !Chip.Shifts(l.state)
    ensures HearsSlowly(Book(l, TxTick), Hear(l, r, TxTick))
  {
    assert l.shifting == [] ==> l.state.tx.phase == Chip.Idle;
    Deadline.WaitTick(l, 0);
    hide Sending, Book, Record, Chip.Shifts;
    TakenMoves(r, l.state.tx.out);
    hide Taken;
  }

  lemma LoadHeard(l: Ledger, r: Recorder)
    requires Sending(l) && l.state.cfg.format.divisor in {16, 64} && HearsSlowly(l, r) && Chip.Shifts(l.state)
    requires l.shifting == []
    ensures HearsSlowly(Book(l, TxTick), Hear(l, r, TxTick))
  {
    TakenMoves(r, true);
    hide Record, Taken;
  }

  /** What the clock that ends a bit time does to the books of a transmitter in a byte. */
  lemma ShiftBooks(l: Ledger)
    requires Sending(l) && Chip.Shifts(l.state) && l.shifting != []
    ensures var m, s := Book(l, TxTick), l.state;
            && s.tx.phase != Chip.Idle && |l.shifting| == 1 && s.tx.ticks == 1
            && m.state.cfg == s.cfg
            && m.state.tx == Chip.ShiftOut(s.cfg, s.tx.(ticks := 0)).(ticks := s.cfg.format.divisor)
            && (Finishes(s) ==> s.tx.phase in {Chip.SendStop2, Chip.SendStop1})
            && m.sent == (if Finishes(s) then l.sent + l.shifting else l.sent)
            && m.shifting == (if Finishes(s) then [] else l.shifting)
            && (Finishes(s) <==> m.state.tx.phase == Chip.Idle)
  {
    Chip.ShiftIgnoresTicks(l.state.cfg, l.state.tx, 0);
  }

  /** The position moves on by one, and a start bit is low. */
  lemma PutMoves(cfg: Chip.Config, tx: Chip.Tx)
    requires Selectable(cfg.format) && cfg.stopBits in {1, 2} && tx.phase != Chip.Idle
    requires tx.phase == Chip.SendStart ==> tx.count == 0
    requires tx.phase == Chip.SendBits ==> tx.count < cfg.format.wordLength
    ensures var t := Chip.ShiftOut(cfg, tx);
            && t.phase != Chip.SendStart && (t.phase == Chip.SendBits ==> t.count < cfg.format.wordLength)
            && (t.phase == Chip.Idle ==> t.out && 8 <= Put(cfg, tx))
            && (t.phase != Chip.Idle ==> Put(cfg, t) == Put(cfg, tx) + 1 || 3 <= Put(cfg, tx) <= Put(cfg, t))
            && (Put(cfg, tx) == 0 ==> !t.out && t.phase == Chip.SendBits)
  {
  }

  lemma ShiftSlowlyHeard(l: Ledger, r: Recorder)
    requires Sending(l) && l.state.cfg.format.divisor in {16, 64} && HearsSlowly(l, r) && Chip.Shifts(l.state)
    requires l.shifting != []
    ensures HearsSlowly(Book(l, TxTick), Hear(l, r, TxTick))
  {
    var cfg, tx, m := l.state.cfg, l.state.tx, Book(l, TxTick);
    ShiftBooks(l);
    FormatOf(l);
    PutMoves(cfg, tx.(ticks := 0));
    assert Put(cfg, tx.(ticks := 0)) == Put(cfg, tx);
    assert Put(cfg, m.state.tx) == Put(cfg, Chip.ShiftOut(cfg, tx.(ticks := 0)));
    TakenMoves(r, m.state.tx.out);
    hide Sending, Book, Record, Taken, Chip.Shifts, Chip.ShiftOut, Finishes, Put, Selectable;
  }

  // ---------------------------------------------------------------- every event

  ghost predicate Hears(l: Ledger, r: Recorder) {
    Sending(l) && if l.state.cfg.format.divisor == 1 then HearsBits(l, r) else HearsSlowly(l, r)
  }

  lemma TickHeard(l: Ledger, r: Recorder)
    requires Hears(l, r)
    ensures Hears(Book(l, TxTick), Hear(l, r, TxTick))
  {
    Deadline.TickRuns(l);
    assert l.state.cfg.format.divisor in {1, 16, 64};
    hide Deadline.Running, HearsBits, HearsSlowly, Book, Hear;
    if l.state.cfg.format.divisor == 1 {
      if l.shifting == [] { TickHeardIdle(l, r); } else { TickHeardSending(l, r); }
    } else if !Chip.Shifts(l.state) {
      WaitHeard(l, r);
    } else if l.shifting == [] {
      LoadHeard(l, r);
    } else {
      ShiftSlowlyHeard(l, r);
    }
  }

  /** An event that leaves the transmitter alone, but for filling the TDR; CTS stays low. */
  predicate Silent(e: Event) {
    Deadline.Quiet(e) || e == CtsLow
  }

  lemma SilentHeard(l: Ledger, r: Recorder, e: Event)
    requires Hears(l, r) && Silent(e)
    ensures Hears(Book(l, e), Hear(l, r, e))
  {
    var m := Book(l, e);
    BookKeepsBalance(l, e);
    SilentLeavesTx(l.state, e);
    assert m.sent == l.sent && m.shifting == l.shifting;
    hide Balanced, Apply, Book;
    SilentKeeps(l, m, r);
  }

  lemma SilentLeavesTx(s: Chip.State, e: Event)
    requires Silent(e) && !s.pins.cts
    ensures var t := Apply(s, e);
            t.cfg == s.cfg && t.tx == s.tx.(tdr := t.tx.tdr, full := t.tx.full) && !t.pins.cts
  {
    if Deadline.Quiet(e) {
      Deadline.QuietLeavesTx(s, e);
    }
  }

  /** Neither condition looks at the TDR. */
  lemma SilentKeeps(l: Ledger, m: Ledger, r: Recorder)
    requires m.sent == l.sent && m.shifting == l.shifting && m.state.cfg == l.state.cfg
    requires m.state.tx == l.state.tx.(tdr := m.state.tx.tdr, full := m.state.tx.full)
    ensures HearsBits(l, r) == HearsBits(m, r) && HearsSlowly(l, r) == HearsSlowly(m, r)
  {
    hide HeardAll, RecorderAt, Taken;
  }

  ghost predicate AllHeard(events: seq<Event>) {
    forall i | 0 <= i < |events| :: Silent(events[i]) || events[i] == TxTick
  }

  lemma {:induction false} EventsHeard(l: Ledger, r: Recorder, events: seq<Event>)
    requires Hears(l, r) && AllHeard(events)
    ensures Hears(BookAll(l, events), HearAll(l, r, events))
  {
    hide Hears, Book, Hear, Silent;
    if events != [] {
      var before, e := events[..|events| - 1], events[|events| - 1];
      EventsHeard(l, r, before);
      if e == TxTick {
        TickHeard(BookAll(l, before), HearAll(l, r, before));
      } else {
        SilentHeard(BookAll(l, before), HearAll(l, r, before), e);
      }
    }
  }

  lemma {:induction false} HearConcat(l: Ledger, r: Recorder, a: seq<Event>, b: seq<Event>)
    ensures HearAll(l, r, a + b) == HearAll(BookAll(l, a), HearAll(l, r, a), b)
  {
    hide Hear, Book;
    if b == [] {
      assert a + b == a;
    } else {
      HearConcat(l, r, a, b[..|b| - 1]);
      Deadline.BookConcat(l, a, b[..|b| - 1]);
      assert (a + b)[..|a + b| - 1] == a + b[..|b| - 1];
    }
  }

  lemma {:induction false} NotHeard(l: Ledger, r: Recorder, events: seq<Event>)
    requires forall i | 0 <= i < |events| :: events[i] != TxTick
    ensures HearAll(l, r, events) == r
  {
    hide Book;
    if events != [] {
      NotHeard(l, r, events[..|events| - 1]);
    }
  }

  // ---------------------------------------------------------------- the port

  /** A raw tape is in the port, the motor is on and the cassette selected. */
  predicate Taping(c: Chain) {
    c.port.Some? && c.port.value.motorOn && c.port.value.deck.RawDeck? && 0x80 <= c.sula.scr < 0xc0
  }

  function Tape(c: Chain): Recorder
    requires Taping(c)
  {
    c.port.value.deck.recorder
  }

  /** Tape and motor stay, and the ACIA's control register is not written. */
  predicate Kept(a: Act) {
    match a
    case Edge16 => true
    case WriteControl(data) => 0x80 <= data < 0xc0
    case Access(e) => e.StatusRead? || e.DataRead? || e.DataWrite?
    case Insert(_) => false
  }

  lemma EdgeTapes(c: Chain)
    requires Taping(c)
    ensures Taping(Tick16(c))
    ensures Tape(Tick16(c)) == if TxDue(c.sula) then Record(Tape(c), Chip.TxClock(c.acia).tx.out) else Tape(c)
  {
    hide Chip.TxClock, TxDue, Record;
    assert Taping(TickTx(c));
    RxKeepsTape(TickTx(c));
  }

  lemma RxKeepsTape(c: Chain)
    requires Taping(c)
    ensures Taping(TickRx(c)) && Tape(TickRx(c)) == Tape(c)
  {
    hide Clocks, LevelNow, RxDue, SerialUlaSpec.Locked, Chip.RxClock, Chip.SetLine;
  }

  /** The port's recorder hears the events of every act. */
  lemma ActTapes(c: Chain, a: Act, l: Ledger)
    requires Taping(c) && Kept(a) && l.state == c.acia
    ensures Taping(Do(c, a)) && Tape(Do(c, a)) == HearAll(l, Tape(c), Clock.ActEvents(c, a))
    ensures AllHeard(Clock.ActEvents(c, a))
  {
    hide TickTx, TickRx, TxDue, Clock.ReceiveEvents, Chip.TxClock, Record, Book, Apply;
    match a
    case Edge16 =>
      var due, rest := Clock.TransmitEvents(c), Clock.ReceiveEvents(TickTx(c));
      EdgeTapes(c);
      Deadline.ReceiveIsQuiet(TickTx(c));
      HearConcat(l, Tape(c), due, rest);
      NotHeard(BookAll(l, due), HearAll(l, Tape(c), due), rest);
      HeardOnce(l, Tape(c));
    case WriteControl(data) =>
      ScrTapes(c, data);
      NotHeard(l, Tape(c), [CtsLow]);
    case Access(e) =>
      NotHeard(l, Tape(c), [e]);
  }

  lemma HeardOnce(l: Ledger, r: Recorder)
    ensures HearAll(l, r, []) == r
    ensures HearAll(l, r, [TxTick]) == Record(r, Chip.TxClock(l.state).tx.out)
  {
    hide Chip.TxClock, Record, Finishes, Chip.Loads;
    assert [TxTick][..0] == [];
    Deadline.NoEvents(l);
  }

  lemma ScrTapes(c: Chain, data: byte)
    requires Taping(c) && 0x80 <= data < 0xc0
    ensures Taping(WriteScr(c, data)) && Tape(WriteScr(c, data)) == Tape(c) && Clock.ScrEvents(c, data) == [CtsLow]
  {
    hide Chip.RaiseCts, Chip.ClearCts, Chip.DropCarrier, Divider, RxDivider;
  }

  ghost predicate AllKept(acts: seq<Act>) {
    forall i | 0 <= i < |acts| :: Kept(acts[i])
  }

  lemma {:induction false} SessionHeard(c: Chain, acts: seq<Act>, l: Ledger)
    requires Taping(c) && AllKept(acts) && l.state == c.acia && Hears(l, Tape(c))
    ensures var d, m := DoAll(c, acts), BookAll(l, Clock.Events(c, acts));
            Taping(d) && m.state == d.acia && Hears(m, Tape(d))
  {
    hide Hears, Kept, Do, Clock.ActEvents, Book, Taping;
    if acts == [] {
      Deadline.NoEvents(l);
    } else {
      var before, a := acts[..|acts| - 1], acts[|acts| - 1];
      SessionHeard(c, before, l);
      var d, m := DoAll(c, before), BookAll(l, Clock.Events(c, before));
      ActTapes(d, a, m);
      EventsHeard(m, Tape(d), Clock.ActEvents(d, a));
      Deadline.BookConcat(l, Clock.Events(c, before), Clock.ActEvents(d, a));
      Clock.SessionIsEvents(c, acts);
      Clock.BooksFollow(l, Clock.Events(c, acts));
    }
  }

  // ---------------------------------------------------------------- what is recorded

  /** An idle transmitter at mark, and a recorder that has heard nothing. */
  ghost predicate Ready(c: Chain) {
    && Taping(c) && Tape(c) == Recorder(-1, 0, [])
    && Consistent(c.acia) && Selectable(c.acia.cfg.format) && !c.acia.pins.cts
    && c.acia.tx.phase == Chip.Idle && !c.acia.tx.full && c.acia.tx.out && !c.acia.tx.brk && c.acia.tx.count < 256
  }

  function Opened(c: Chain): Ledger {
    Ledger(c.acia, [], [], [])
  }

  lemma ReadyHears(c: Chain)
    requires Ready(c)
    ensures Hears(Opened(c), Tape(c))
  {
  }

  /**
   * With the ACIA's clock undivided, every byte sent is on the tape as the eight levels after its start bit, and so is
   * one whose eighth and ninth have been heard.
   */
  lemma RecordedUndivided(c: Chain, acts: seq<Act>)
    requires Ready(c) && AllKept(acts) && c.acia.cfg.format.divisor == 1
    ensures var d, m := DoAll(c, acts), BookAll(Opened(c), Clock.Events(c, acts));
            var f := c.acia.cfg.format;
            var heard := if m.shifting != [] && 10 <= Put(m.state.cfg, m.state.tx) then m.shifting else [];
            Taping(d) && Tape(d).recorded == HeardAll(f, m.sent + heard)
  {
    hide AllKept, Clock.Events, DoAll, BookAll;
    ReadyHears(c);
    SessionHeard(c, acts, Opened(c));
    ConfigStays(c, acts);
    var m := BookAll(Opened(c), Clock.Events(c, acts));
    hide Ready, Taping, Deadline.Running, Selectable;
    if m.shifting != [] {
      OneByte(m);
      HeardMore(c.acia.cfg.format, m.sent, m.shifting[0]);
    }
    assert m.sent + [] == m.sent;
  }

  lemma OneByte(l: Ledger)
    requires Sending(l) && l.shifting != []
    ensures l.shifting == [l.shifting[0]]
  {
  }

  lemma {:induction false} ConfigStays(c: Chain, acts: seq<Act>)
    requires Taping(c) && AllKept(acts)
    ensures DoAll(c, acts).acia.cfg == c.acia.cfg && Taping(DoAll(c, acts))
    ensures BookAll(Opened(c), Clock.Events(c, acts)).state == DoAll(c, acts).acia
  {
    hide Do, Kept, Taping, Clock.Events, BookAll, DoAll;
    Clock.SessionIsEvents(c, acts);
    Clock.BooksFollow(Opened(c), Clock.Events(c, acts));
    if acts == [] {
      assert DoAll(c, acts) == c by { EmptySession(c); }
    } else {
      var before, a := acts[..|acts| - 1], acts[|acts| - 1];
      ConfigStays(c, before);
      assert DoAll(c, acts) == Do(DoAll(c, before), a) by { OneMore(c, acts); }
      ActTapes(DoAll(c, before), a, Ledger(DoAll(c, before).acia, [], [], []));
      ActKeepsConfig(DoAll(c, before), a);
    }
  }

  lemma EmptySession(c: Chain)
    ensures DoAll(c, []) == c
  {
  }

  lemma OneMore(c: Chain, acts: seq<Act>)
    requires acts != []
    ensures DoAll(c, acts) == Do(DoAll(c, acts[..|acts| - 1]), acts[|acts| - 1])
  {
  }

  lemma ActKeepsConfig(c: Chain, a: Act)
    requires Taping(c) && Kept(a)
    ensures Do(c, a).acia.cfg == c.acia.cfg
  {
    hide Clocks, Fetches, FetchedCarrier, LevelNow, TxDue, Chip.ClockTx, Inc32, Chip.Loads;
  }

  /** A byte's eight levels are the byte, unless it has seven bits and its parity bit is not its eighth. */
  lemma HeardIs(f: Format, b: byte)
    requires Selectable(f)
    ensures Heard(f, b) == b <==> f.wordLength == 8 || OddOnes(b, 8) == (f.parity == Odd)
  {
    GatheredIs(f, b, f.wordLength);
    WholeByte(b);
    if f.wordLength == 7 {
      var parity := FrameBit(f, b, 8);
      assert Heard(f, b) == OrBit(Low(b, 7), parity, 7);
      assert Low(b, 8) == OrBit(Low(b, 7), Bit(b, 7), 7);
      LowIsRemainder(b, 7);
      SetNextBit(Low(b, 7), 7);
      assert Power(7) != 0;
      hide Low, SetBit;
    }
  }

  lemma {:induction false} GatheredIs(f: Format, b: nat, k: nat)
    requires k <= f.wordLength
    ensures Gathered(f, b, k) == Low(b, k)
  {
    hide OrBit;
    if k > 0 {
      GatheredIs(f, b, k - 1);
    }
  }

  lemma {:induction false} HeardAllAt(f: Format, bytes: seq<byte>)
    ensures |HeardAll(f, bytes)| == |bytes|
    ensures forall i | 0 <= i < |bytes| :: HeardAll(f, bytes)[i] == Heard(f, bytes[i])
  {
    hide Heard;
    if bytes != [] {
      HeardAllAt(f, bytes[..|bytes| - 1]);
    }
  }

  /**
   * Undivided, whenever the transmitter is between bytes: what the tape has recorded is what has been sent if and only
   * if the word has eight bits, or in each byte sent the number of ones is odd or even as the parity is.
   */
  lemma UndividedIsSent(c: Chain, acts: seq<Act>)
    requires Ready(c) && AllKept(acts) && c.acia.cfg.format.divisor == 1
    requires BookAll(Opened(c), Clock.Events(c, acts)).shifting == []
    ensures var d, m := DoAll(c, acts), BookAll(Opened(c), Clock.Events(c, acts));
            var f := c.acia.cfg.format;
            Taping(d) &&
            (Tape(d).recorded == m.sent <==>
              f.wordLength == 8 || forall i | 0 <= i < |m.sent| :: OddOnes(m.sent[i], 8) == (f.parity == Odd))
  {
    hide AllKept, Clock.Events, DoAll, BookAll, HeardAll, Heard, OddOnes;
    var f, m := c.acia.cfg.format, BookAll(Opened(c), Clock.Events(c, acts));
    RecordedUndivided(c, acts);
    assert m.sent + [] == m.sent;
    HeardAllAt(f, m.sent);
    assert Selectable(f);
    hide Ready, Taping, Selectable;
    forall i | 0 <= i < |m.sent|
      ensures HeardAll(f, m.sent)[i] == m.sent[i] <==>
              f.wordLength == 8 || OddOnes(m.sent[i], 8) == (f.parity == Odd) {
      HeardIs(f, m.sent[i]);
    }
  }

  /** Divided by 16 or 64, a start bit has been heard fewer than ten times, or none has. */
  predicate JustBegun(m: Ledger) {
    m.sent == [] &&
    (m.shifting == [] || Put(m.state.cfg, m.state.tx) == 0 ||
     (Put(m.state.cfg, m.state.tx) == 1 && m.state.cfg.format.divisor - m.state.tx.ticks + 1 < 10))
  }

  /**
   * Divided by 16 or 64, at least two bytes are recorded for every one sent, so that what is recorded is what has been
   * sent only as long as nothing has been either: until the first start bit has been heard ten times.
   */
  lemma DividedIsNotSent(c: Chain, acts: seq<Act>)
    requires Ready(c) && AllKept(acts) && c.acia.cfg.format.divisor in {16, 64}
    ensures var d, m := DoAll(c, acts), BookAll(Opened(c), Clock.Events(c, acts));
            && Taping(d) && 2 * |m.sent| <= |Tape(d).recorded|
            && (Tape(d).recorded == m.sent <==> JustBegun(m))
  {
    hide AllKept, Clock.Events, DoAll, BookAll;
    ReadyHears(c);
    SessionHeard(c, acts, Opened(c));
    ConfigStays(c, acts);
    hide Ready, Taping, Deadline.Running, Selectable;
  }
}
