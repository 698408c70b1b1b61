// The transmit side of the serial ULA over whole sessions of clock edges and register accesses: how often it clocks
// the ACIA's transmitter, that no byte is lost on the way, and how long a byte takes.

module TransmitClock {
  import opened Bits
  import opened SerialUlaSpec
  import opened CarrierLock
  import Chip = AciaSpec
  import opened AciaRuns
  import opened TransmitLedger
  import Division

  // ---------------------------------------------------------------- what a session does to the ACIA

  /** The carrier's coming with the hundredth carrier bit in a row, and its going with the first bit without. */
  function LockEvents(count: nat, carrier: bool): seq<Event> {
    if carrier && Inc32(count) == CARRIER_LOCK then [CarrierOn]
    else if !carrier && count >= CARRIER_LOCK then [CarrierOff]
    else []
  }

  function ReceiveEvents(c: Chain): seq<Event> {
    if !Clocks(c) then []
    else (if Fetches(c) then LockEvents(c.sula.carrierCount, FetchedCarrier(c)) else []) + [Line(LevelNow(c)), RxTick]
  }

  /** The transmitter is clocked whenever its divider runs out, whatever the serial ULA is connected to. */
  function TransmitEvents(c: Chain): seq<Event> {
    if TxDue(c.sula) then [TxTick] else []
  }

  /** CTS follows bit 6 of the SCR, and a motor switched off in cassette mode takes the carrier with it. */
  function ScrEvents(c: Chain, data: byte): seq<Event> {
    [if data / 0x40 % 2 == 1 then CtsHigh else CtsLow]
    + if c.port.Some? && c.sula.scr >= 0x80 && data < 0x40 then [CarrierOff] else []
  }

  function ActEvents(c: Chain, a: Act): seq<Event> {
    match a
    case Edge16 => TransmitEvents(c) + ReceiveEvents(TickTx(c))
    case WriteControl(data) => ScrEvents(c, data)
    case Access(e) => [e]
    case Insert(_) => []
  }

  function Events(c: Chain, acts: seq<Act>): seq<Event> {
    if acts == [] then []
    else Events(c, acts[..|acts| - 1]) + ActEvents(DoAll(c, acts[..|acts| - 1]), acts[|acts| - 1])
  }

  lemma AfterOne(s: Chip.State, e: Event)
    ensures After(s, [e]) == Apply(s, e)
  {
    assert [e][..0] == [] && After(s, []) == s;
  }

  lemma LockIsEvents(s: Chip.State, count: nat, carrier: bool)
    ensures After(s, LockEvents(count, carrier)) == Lock(s, count, carrier)
  {
    hide Chip.ApplyCarrier, Chip.DropCarrier;
    AfterOne(s, CarrierOn);
    AfterOne(s, CarrierOff);
  }

  lemma ReceiveIsEvents(c: Chain)
    ensures After(c.acia, ReceiveEvents(c)) == TickRx(c).acia
  {
    hide Clocks, Fetches, LevelNow, FetchedCarrier, Lock, LockEvents, Chip.RxClock, After;
    var locked, level := SerialUlaSpec.Locked(c), LevelNow(c);
    var lock := if Fetches(c) then LockEvents(c.sula.carrierCount, FetchedCarrier(c)) else [];
    LockIsEvents(c.acia, c.sula.carrierCount, FetchedCarrier(c));
    Nothing(c.acia);
    assert After(c.acia, lock) == locked;
    AfterConcat(c.acia, lock, [Line(level), RxTick]);
    assert [Line(level)] + [RxTick] == [Line(level), RxTick];
    AfterOneMore(locked, [Line(level)], RxTick);
    AfterOne(locked, Line(level));
    CarrierLock.FetchIsClock(c);
  }

  lemma Nothing(s: Chip.State)
    ensures After(s, []) == s
  {
  }

  lemma ScrIsEvents(c: Chain, data: byte)
    ensures After(c.acia, ScrEvents(c, data)) == WriteScr(c, data).acia
  {
    hide Chip.RaiseCts, Chip.ClearCts, Chip.DropCarrier, Divider, RxDivider, After;
    var cts := [if data / 0x40 % 2 == 1 then CtsHigh else CtsLow];
    AfterOne(c.acia, cts[0]);
    AfterOneMore(c.acia, cts, CarrierOff);
    assert cts + [] == cts;
  }

  lemma ActIsEvents(c: Chain, a: Act)
    ensures After(c.acia, ActEvents(c, a)) == Do(c, a).acia
  {
    hide ScrEvents, ReceiveEvents, TickRx, WriteScr, Apply, After, TxDue, Chip.TxClock;
    match a
    case Edge16 =>
      var t := TickTx(c);
      ReceiveIsEvents(t);
      AfterOne(c.acia, TxTick);
      Nothing(c.acia);
      assert t.acia == After(c.acia, TransmitEvents(c)) by {
        TxEvent(c);
      }
      AfterConcat(c.acia, TransmitEvents(c), ReceiveEvents(t));
    case WriteControl(data) => ScrIsEvents(c, data);
    case Access(e) => AfterOne(c.acia, e);
    case Insert(_) => Nothing(c.acia);
  }

  lemma TxEvent(c: Chain)
    ensures TickTx(c).acia == if TxDue(c.sula) then Apply(c.acia, TxTick) else c.acia
  {
    hide Chip.TxClock;
  }

  /** A session acts on the ACIA by its events, and in no other way. */
  lemma {:induction false} SessionIsEvents(c: Chain, acts: seq<Act>)
    ensures DoAll(c, acts).acia == After(c.acia, Events(c, acts))
  {
    hide Do, ActEvents, After;
    Nothing(c.acia);
    if acts != [] {
      var before := acts[..|acts| - 1];
      SessionIsEvents(c, before);
      ActIsEvents(DoAll(c, before), acts[|acts| - 1]);
      AfterConcat(c.acia, Events(c, before), ActEvents(DoAll(c, before), acts[|acts| - 1]));
    }
  }

  // ---------------------------------------------------------------- how often the transmitter is clocked

  function Ticks(events: seq<Event>): nat {
    if events == [] then 0 else Ticks(events[..|events| - 1]) + if events[|events| - 1].TxTick? then 1 else 0
  }

  function Edges(acts: seq<Act>): nat {
    if acts == [] then 0 else Edges(acts[..|acts| - 1]) + if acts[|acts| - 1].Edge16? then 1 else 0
  }

  lemma {:induction false} TicksConcat(a: seq<Event>, b: seq<Event>)
    ensures Ticks(a + b) == Ticks(a) + Ticks(b)
  {
    if b == [] {
      assert a + b == a;
    } else {
      TicksConcat(a, b[..|b| - 1]);
      assert (a + b)[..|a + b| - 1] == a + b[..|b| - 1];
    }
  }

  lemma TicksOfTwo(a: Event, b: Event)
    ensures Ticks([a, b]) == Ticks([a]) + Ticks([b]) && Ticks([a]) == if a.TxTick? then 1 else 0
  {
    assert [a, b] == [a] + [b];
    TicksConcat([a], [b]);
  }

  lemma ReceiveHasNoTick(c: Chain)
    ensures Ticks(ReceiveEvents(c)) == 0
  {
    hide Clocks, Fetches, LevelNow, FetchedCarrier;
    var lock := if Fetches(c) then LockEvents(c.sula.carrierCount, FetchedCarrier(c)) else [];
    TicksConcat(lock, [Line(LevelNow(c)), RxTick]);
    TicksOfTwo(Line(LevelNow(c)), RxTick);
    TicksOfTwo(CarrierOn, CarrierOff);
  }

  /** Only an edge of the clock, and only with the divider at its end, clocks the transmitter. */
  lemma ActTicks(c: Chain, a: Act)
    requires FromCpu(a)
    ensures Ticks(ActEvents(c, a)) == if a.Edge16? && TxDue(c.sula) then 1 else 0
  {
    hide TickTx, ReceiveEvents, TxDue;
    match a
    case Edge16 =>
      ReceiveHasNoTick(TickTx(c));
      TicksConcat(TransmitEvents(c), ReceiveEvents(TickTx(c)));
      TicksOfTwo(TxTick, TxTick);
    case WriteControl(data) =>
      TicksOfTwo(ScrEvents(c, data)[0], CarrierOff);
      TicksOfTwo(CtsHigh, CtsLow);
    case Access(e) => TicksOfTwo(e, e);
    case Insert(_) =>
  }

  /** The transmitter's divider and its counter, on which nothing but edges and SCR writes act. */
  lemma CounterMoves(c: Chain, a: Act)
    requires !a.WriteControl?
    ensures var s, t := c.sula, Do(c, a).sula;
            && t.txDivider == s.txDivider
            && t.txCounter == if !a.Edge16? then s.txCounter
                              else if TxDue(s) then 13 * s.txDivider else Chip.Dec32(s.txCounter)
  {
    hide TickRx, TxDue, Chip.Dec32;
    if a.Edge16? {
      RxKeepsCounter(TickTx(c));
    }
  }

  lemma RxKeepsCounter(c: Chain)
    ensures TickRx(c).sula.txCounter == c.sula.txCounter && TickRx(c).sula.txDivider == c.sula.txDivider
  {
  }

  ghost predicate NoScrWrite(acts: seq<Act>) {
    forall i | 0 <= i < |acts| :: !acts[i].WriteControl? && FromCpu(acts[i])
  }

  /** Calls of the divider that are due in so many edges, with r to go and a period of p. */
  function Due(edges: nat, r: nat, p: nat): nat
    requires 0 < p
  {
    if edges < r then 0 else 1 + (edges - r) / p
  }

  function ToNext(edges: nat, r: nat, p: nat): nat
    requires 0 < p
  {
    if edges < r then r - edges else p - (edges - r) % p
  }

  lemma OneEdgeMore(edges: nat, r: nat, p: nat)
    requires 0 < r <= p && 0 < edges
    ensures var before := ToNext(edges - 1, r, p);
            && 1 <= before
            && Due(edges, r, p) == Due(edges - 1, r, p) + (if before == 1 then 1 else 0)
            && ToNext(edges, r, p) == if before == 1 then p else before - 1
  {
    if r < edges {
      Division.OneMore(edges - r, p);
    } else if r == edges {
      Division.QuotientIs(0, p, 0, 0);
    }
  }

  /** From a counter at r the transmitter is clocked at edge r and at every period's edge after it. */
  lemma {:induction false} ClockedEvenly(c: Chain, acts: seq<Act>, r: nat, p: nat)
    requires NoScrWrite(acts) && c.sula.txCounter == r && p == 13 * c.sula.txDivider && 0 < r <= p
    ensures Ticks(Events(c, acts)) == Due(Edges(acts), r, p)
    ensures DoAll(c, acts).sula.txDivider == c.sula.txDivider
    ensures DoAll(c, acts).sula.txCounter == ToNext(Edges(acts), r, p)
  {
    hide Do, ActEvents, Due, ToNext, TxDue;
    if acts == [] {
      NotYet(r, p);
    } else {
      var before, a := acts[..|acts| - 1], acts[|acts| - 1];
      ClockedEvenly(c, before, r, p);
      var t := DoAll(c, before);
      ActTicks(t, a);
      TicksConcat(Events(c, before), ActEvents(t, a));
      CounterMoves(t, a);
      if a.Edge16? {
        OneEdgeMore(Edges(acts), r, p);
        DueAtOne(t.sula);
      }
    }
  }

  lemma NotYet(r: nat, p: nat)
    requires 0 < r && 0 < p
    ensures Due(0, r, p) == 0 && ToNext(0, r, p) == r
  {
  }

  lemma DueAtOne(s: Sula)
    requires 1 <= s.txCounter
    ensures TxDue(s) == (s.txCounter == 1) && Chip.Dec32(s.txCounter) == s.txCounter - 1
  {
  }

  /** The baud rates of the three low bits of the SCR, as the manual lists them. */
  function Baud(data: byte): nat
    ensures Baud(data) != 0
  {
    match data % 8
    case 0 => 19200
    case 1 => 9600
    case 2 => 4800
    case 3 => 2400
    case 4 => 1200
    case 5 => 300
    case 6 => 150
    case _ => 75
  }

  /** Edges of the 16 MHz clock from one transmitter clock to the next. */
  function Period(data: byte): nat {
    13 * (19200 / Baud(data))
  }

  lemma PeriodIsDivider(data: byte)
    ensures Period(data) == 13 * Divider(data) && 13 <= Period(data)
  {
  }

  /** With the ACIA dividing by 64, a second's bits take sixteen million edges to within a fifth of a percent. */
  lemma BaudIsKept(data: byte)
    ensures 998 * 16_000_000 <= 1000 * (Baud(data) * 64 * Period(data)) <= 1000 * 16_000_000
  {
    assert Baud(data) * 64 * Period(data) == 15_974_400;
  }

  /** Between SCR writes the transmitter is clocked exactly once in every period, in either mode. */
  lemma TransmitterClocked(c: Chain, data: byte, acts: seq<Act>)
    requires NoScrWrite(acts)
    ensures Ticks(Events(WriteScr(c, data), acts)) == Edges(acts) / Period(data)
  {
    hide Divider, Period, Events, DoAll, Ticks, Edges;
    PeriodIsDivider(data);
    ScrSets(c, data);
    ClockedEvenly(WriteScr(c, data), acts, Period(data), Period(data));
    FromTheStart(Edges(acts), Period(data));
  }

  lemma ScrSets(c: Chain, data: byte)
    ensures var s := WriteScr(c, data).sula;
            s.txDivider == Divider(data) && s.txCounter == 13 * Divider(data) && s.scr == data
  {
  }

  lemma FromTheStart(edges: nat, p: nat)
    requires 0 < p
    ensures Due(edges, p, p) == edges / p
  {
    if p <= edges {
      var q, r := (edges - p) / p, (edges - p) % p;
      assert edges == p * (q + 1) + r;
      Division.QuotientIs(edges, p, q + 1, r);
    } else {
      Division.QuotientIs(edges, p, 0, edges);
    }
  }

  // ---------------------------------------------------------------- nothing is lost in a session

  ghost predicate NoReset(acts: seq<Act>) {
    forall i | 0 <= i < |acts| ::
      FromCpu(acts[i]) && (acts[i].Access? && acts[i].e.Control? ==> !Chip.IsMasterReset(acts[i].e.data))
  }

  lemma ResetsAreAccesses(c: Chain, a: Act)
    requires a.Access? && a.e.Control? ==> !Chip.IsMasterReset(a.e.data)
    ensures NoMasterReset(ActEvents(c, a))
  {
    hide TickTx, Clocks, Fetches, LevelNow, FetchedCarrier, TxDue, Chip.IsMasterReset;
  }

  lemma {:induction false} SessionHasNoReset(c: Chain, acts: seq<Act>)
    requires NoReset(acts)
    ensures NoMasterReset(Events(c, acts))
  {
    hide DoAll, ActEvents, Chip.IsMasterReset;
    if acts != [] {
      SessionHasNoReset(c, acts[..|acts| - 1]);
      ResetsAreAccesses(DoAll(c, acts[..|acts| - 1]), acts[|acts| - 1]);
    }
  }

  lemma {:induction false} BooksFollow(l: Ledger, events: seq<Event>)
    ensures BookAll(l, events).state == After(l.state, events)
  {
    hide Apply, Finishes, Chip.Loads;
    if events != [] {
      BooksFollow(l, events[..|events| - 1]);
    }
  }

  /**
   * Over any session of edges, SCR writes, tapes and accesses without a reset, every byte that the TDR accepts has
   * been sent, is in the shift register or waits in the TDR: none is lost and none sent twice.
   */
  lemma SessionBalances(c: Chain, acts: seq<Act>)
    requires Consistent(c.acia) && c.acia.tx.phase == Chip.Idle && !c.acia.tx.full && NoReset(acts)
    ensures var l := BookAll(Ledger(c.acia, [], [], []), Events(c, acts));
            l.state == DoAll(c, acts).acia && l.accepted == l.sent + l.shifting + InTdr(l.state)
  {
    hide Consistent, Chip.IsMasterReset;
    var l := Ledger(c.acia, [], [], []);
    SessionHasNoReset(c, acts);
    SessionIsEvents(c, acts);
    BooksFollow(l, Events(c, acts));
    NothingIsLostOrDuplicated(l, Events(c, acts));
  }
}
