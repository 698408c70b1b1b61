// Conservation on the transmit side: every byte the TDR accepts is sent, in the shift register or
// still in the TDR, whatever CTS, break and control writes do, as long as the chip is not reset.

module TransmitLedger {
  import opened Bits
  import opened AciaSpec
  import opened AciaRuns

  datatype Ledger = Ledger(state: State, accepted: seq<byte>, sent: seq<byte>, shifting: seq<byte>)

  /** The last shift of a character: its (last) stop bit. */
  predicate Finishes(s: State) {
    Shifts(s) && !s.tx.brk && (s.tx.phase == SendStop2 || (s.tx.phase == SendStop1 && s.cfg.stopBits != 2))
  }

  function Book(l: Ledger, e: Event): Ledger {
    var s := l.state;
    Ledger(
      Apply(s, e),
      if e.DataWrite? && s.sr.tdre then l.accepted + [e.data] else l.accepted,
      if e.TxTick? && Finishes(s) then l.sent + l.shifting else l.sent,
      if e.TxTick? && Finishes(s) then []
      else if e.TxTick? && Loads(s) then [s.tx.tdr]
      else l.shifting)
  }

  function BookAll(l: Ledger, events: seq<Event>): Ledger {
    if events == [] then l else Book(BookAll(l, events[..|events| - 1]), events[|events| - 1])
  }

  function InTdr(s: State): seq<byte> {
    if s.tx.full then [s.tx.tdr] else []
  }

  ghost predicate Balanced(l: Ledger) {
    && Consistent(l.state)
    && l.accepted == l.sent + l.shifting + InTdr(l.state)
    && |l.shifting| == (if l.state.tx.phase == Idle then 0 else 1)
  }

  lemma {:induction false} NothingIsLostOrDuplicated(l: Ledger, events: seq<Event>)
    requires Balanced(l) && NoMasterReset(events)
    ensures Balanced(BookAll(l, events))
  {
    if events != [] {
      NothingIsLostOrDuplicated(l, events[..|events| - 1]);
      BookKeepsBalance(BookAll(l, events[..|events| - 1]), events[|events| - 1]);
    }
  }

  lemma BookKeepsBalance(l: Ledger, e: Event)
    requires Balanced(l) && !(e.Control? && IsMasterReset(e.data))
    ensures Balanced(Book(l, e))
  {
    StepKeepsConsistent(l.state, e);
    if e.TxTick? {
      TickKeepsBalance(l);
    } else {
      OnlyWritesTouchTheTdr(l.state, e);
    }
  }

  lemma OnlyWritesTouchTheTdr(s: State, e: Event)
    requires !e.TxTick? && !(e.Control? && IsMasterReset(e.data))
    ensures Apply(s, e).tx.phase == s.tx.phase
    ensures if e.DataWrite? && s.sr.tdre then InTdr(Apply(s, e)) == [e.data]
            else InTdr(Apply(s, e)) == InTdr(s)
  {
  }

  lemma TickKeepsBalance(l: Ledger)
    requires Balanced(l)
    ensures var m := Book(l, TxTick);
            && m.accepted == m.sent + m.shifting + InTdr(m.state)
            && |m.shifting| == (if m.state.tx.phase == Idle then 0 else 1)
  {
    var s := l.state;
    ShiftOutKeepsRegister(s.cfg, s.tx);
    if Finishes(s) {
      assert l.shifting + InTdr(s) == l.shifting + ([] + InTdr(s));
    }
  }

  /** The whole run from power-on: nothing has been accepted, and the ledger stays balanced. */
  lemma EveryRunBalances(events: seq<Event>, tail: seq<Event>)
    requires NoMasterReset(tail)
    requires After(POWER_ON, events).tx.phase == Idle && !After(POWER_ON, events).tx.full
    ensures var l := BookAll(Ledger(After(POWER_ON, events), [], [], []), tail);
            l.accepted == l.sent + l.shifting + InTdr(l.state)
  {
    EveryRunIsConsistent(events);
    NothingIsLostOrDuplicated(Ledger(After(POWER_ON, events), [], [], []), tail);
  }
}
