// How often the serial ULA clocks the ACIA's receiver: at one rate for the cassette, whatever is programmed, and with
// RS423 selected not at all.

module ReceiveClock {
  import opened Bits
  import opened SerialUlaSpec
  import opened CarrierLock
  import opened TransmitClock
  import opened AciaRuns
  import Chip = AciaSpec

  /** How often the receive divider has run out. */
  function Runs(c: Chain, acts: seq<Act>): nat {
    if acts == [] then 0
    else
      var before := acts[..|acts| - 1];
      Runs(c, before) + if acts[|acts| - 1].Edge16? && RxDue(DoAll(c, before).sula) then 1 else 0
  }

  function Clocked(events: seq<Event>): nat {
    if events == [] then 0 else Clocked(events[..|events| - 1]) + if events[|events| - 1].RxTick? then 1 else 0
  }

  /** Edges from one to the next: thirteen times sixty-four for the cassette, and for RS423 as bits 3 to 5 select. */
  function ReceivePeriod(data: byte): nat {
    if data / 0x40 % 2 == 1 then Period(data / 8) else 832
  }

  lemma ReceiverMoves(c: Chain, a: Act)
    requires !a.WriteControl?
    ensures var s, t := c.sula, Do(c, a).sula;
            && t.rxDivider == s.rxDivider && t.scr == s.scr
            && t.rxCounter == if !a.Edge16? then s.rxCounter
                              else if RxDue(s) then 13 * RxDivider(s.scr, s.rxDivider) else Chip.Dec32(s.rxCounter)
  {
    hide Chip.Dec32, Chip.TxClock, Chip.RxClock, SerialUlaSpec.Locked, RxDivider, PortRecord, PortNext, Counted;
  }

  lemma ReceiverDueAtOne(s: Sula)
    requires 1 <= s.rxCounter
    ensures RxDue(s) == (s.rxCounter == 1) && Chip.Dec32(s.rxCounter) == s.rxCounter - 1
  {
  }

  lemma {:induction false} RunsEvenly(c: Chain, acts: seq<Act>, p: nat)
    requires NoScrWrite(acts) && c.sula.rxCounter == p == 13 * RxDivider(c.sula.scr, c.sula.rxDivider) && 0 < p
    ensures Runs(c, acts) == Due(Edges(acts), p, p)
    ensures var t := DoAll(c, acts).sula;
            t.scr == c.sula.scr && t.rxDivider == c.sula.rxDivider && t.rxCounter == ToNext(Edges(acts), p, p)
  {
    hide Do, Due, ToNext, RxDue, RxDivider;
    if acts == [] {
      NotYet(p, p);
    } else {
      var before, a := acts[..|acts| - 1], acts[|acts| - 1];
      RunsEvenly(c, before, p);
      var t := DoAll(c, before);
      ReceiverMoves(t, a);
      if a.Edge16? {
        OneEdgeMore(Edges(acts), p, p);
        ReceiverDueAtOne(t.sula);
      }
    }
  }

  lemma ScrSetsReceiver(c: Chain, data: byte)
    ensures var s := WriteScr(c, data).sula;
            s.rxCounter == ReceivePeriod(data) == 13 * RxDivider(s.scr, s.rxDivider) && s.scr == data
    ensures 0 < ReceivePeriod(data)
  {
    PeriodIsDivider(data / 8);
  }

  lemma {:induction false} ClockedConcat(a: seq<Event>, b: seq<Event>)
    ensures Clocked(a + b) == Clocked(a) + Clocked(b)
  {
    if b == [] {
      assert a + b == a;
    } else {
      ClockedConcat(a, b[..|b| - 1]);
      assert (a + b)[..|a + b| - 1] == a + b[..|b| - 1];
    }
  }

  lemma ClockedOfTwo(a: Event, b: Event)
    ensures Clocked([a, b]) == Clocked([a]) + Clocked([b]) && Clocked([a]) == if a.RxTick? then 1 else 0
  {
    assert [a, b] == [a] + [b];
    ClockedConcat([a], [b]);
  }

  /** The receiver is clocked when its divider runs out with the cassette selected and a port there. */
  lemma ActClocks(c: Chain, a: Act)
    requires FromCpu(a) && !a.WriteControl?
    ensures Clocked(ActEvents(c, a))
         == if a.Edge16? && RxDue(c.sula) && c.sula.scr / 0x40 % 2 == 0 && c.port.Some? then 1 else 0
  {
    hide RxDue, TxDue, Fetches, LevelNow, FetchedCarrier;
    match a
    case Edge16 =>
      var t := TickTx(c);
      TxKeepsReceiver(c);
      hide TickTx;
      var lock := if Fetches(t) then LockEvents(t.sula.carrierCount, FetchedCarrier(t)) else [];
      ClockedConcat(TransmitEvents(c), ReceiveEvents(t));
      ClockedConcat(lock, [Line(LevelNow(t)), RxTick]);
      ClockedOfTwo(Line(LevelNow(t)), RxTick);
      ClockedOfTwo(CarrierOn, CarrierOff);
      ClockedOfTwo(TxTick, TxTick);
    case Access(e) => ClockedOfTwo(e, e);
    case Insert(_) =>
  }

  lemma TxKeepsReceiver(c: Chain)
    ensures RxDue(TickTx(c).sula) == RxDue(c.sula) && TickTx(c).sula.scr == c.sula.scr
    ensures TickTx(c).port.Some? == c.port.Some?
  {
    hide Chip.TxClock, PortRecord;
  }

  lemma {:induction false} RunsClock(c: Chain, acts: seq<Act>)
    requires NoScrWrite(acts)
    ensures Clocked(Events(c, acts)) == if c.sula.scr / 0x40 % 2 == 0 && c.port.Some? then Runs(c, acts) else 0
    ensures DoAll(c, acts).sula.scr == c.sula.scr && DoAll(c, acts).port.Some? == c.port.Some?
  {
    hide Do, ActEvents, RxDue;
    if acts != [] {
      var before, a := acts[..|acts| - 1], acts[|acts| - 1];
      RunsClock(c, before);
      var t := DoAll(c, before);
      ActClocks(t, a);
      ClockedConcat(Events(c, before), ActEvents(t, a));
      ReceiverMoves(t, a);
      PortStays(t, a);
    }
  }

  lemma PortStays(c: Chain, a: Act)
    ensures Do(c, a).port.Some? == c.port.Some?
  {
    hide Chip.TxClock, PortRecord, PortNext, Fetches, MotorOn;
    FetchIsClock(TickTx(c));
  }

  /**
   * Between SCR writes the receive divider runs out exactly once a period. With the cassette selected each time
   * clocks the receiver, at 16 MHz / 832 whatever bits 3 to 5 select; with RS423 none does.
   */
  lemma ReceiverClocked(c: Chain, data: byte, acts: seq<Act>)
    requires NoScrWrite(acts)
    ensures var s, runs := WriteScr(c, data), Edges(acts) / ReceivePeriod(data);
            && Runs(s, acts) == runs
            && Clocked(Events(s, acts)) == if data / 0x40 % 2 == 0 && c.port.Some? then runs else 0
  {
    hide Divider, ReceivePeriod, Events, DoAll, Edges, RxDivider;
    ScrSetsReceiver(c, data);
    RunsEvenly(WriteScr(c, data), acts, ReceivePeriod(data));
    FromTheStart(Edges(acts), ReceivePeriod(data));
    RunsClock(WriteScr(c, data), acts);
    PortStays(c, WriteControl(data));
  }

  /** With RS423 selected the tape stands and records nothing. */
  lemma {:induction false} Rs423LeavesTheTape(c: Chain, acts: seq<Act>)
    requires NoScrWrite(acts) && c.sula.scr / 0x40 % 2 == 1 && forall i | 0 <= i < |acts| :: !acts[i].Insert?
    ensures DoAll(c, acts).port == c.port && DoAll(c, acts).sula.scr == c.sula.scr
  {
    hide Chip.TxClock, Chip.RxClock, AciaRuns.Apply, RxDue, TxDue, Inc32, FromCpu;
    if acts != [] {
      Rs423LeavesTheTape(c, acts[..|acts| - 1]);
    }
  }
}
