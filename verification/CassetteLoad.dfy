// Loading from cassette, end to end: 16 MHz ticks of the serial ULA interleaved in any order with the
// CPU's accesses to the ACIA, from the motor relay to the bytes that the CPU has read.

module CassetteLoad {
  import opened Bits
  import opened Receiver
  import opened TapeStreams
  import opened TapeText
  import opened TapePlayer
  import TapeLoading
  import opened SerialUlaSpec
  import Chip = AciaSpec
  import AciaRuns

  datatype Event = Tick | Poll | Take | Send(data: byte)

  /**
   * The chain, the characters the receiver has delivered, those the CPU has read from a full RDR (with
   * the error flags it could see), and how many were discarded: by an overrun, or by a carrier drop.
   */
  datatype Session = Session(chain: Chain, chars: seq<Char>, log: seq<Char>, lost: nat)

  // ---------------------------------------------------------------- one event

  /** The ACIA as the receiver clock of this tick finds it. */
  function AtClock(c: Chain): Chip.State {
    Chip.SetLine(Locked(c), LevelNow(c))
  }

  function Got(c: Chain): Option<Char> {
    if Clocks(c) then Chip.Received(AtClock(c)) else None
  }

  function Pending(a: Chip.State): seq<Char> {
    if a.inbox.full then [Char(a.inbox.rdr, a.sr.fe, a.sr.pe)] else []
  }

  /** Characters that a receiver clock throws away. */
  function Discarded(c: Chain): nat {
    if !Clocks(c) then 0 else
      (if c.acia.inbox.full && !Locked(c).inbox.full then 1 else 0)
      + (if Got(c).Some? && Locked(c).inbox.full then 1 else 0)
  }

  function Act(s: Session, e: Event): Session {
    var c := s.chain;
    match e
    case Tick =>
      var sent := TickTx(c);
      Session(TickRx(sent), s.chars + Emit(Got(sent)), s.log, s.lost + Discarded(sent))
    case Poll => s.(chain := c.(acia := Chip.ReadStatus(c.acia)))
    case Take => s.(chain := c.(acia := Chip.ReadRdr(c.acia)), log := s.log + Pending(c.acia))
    case Send(data) => s.(chain := c.(acia := Chip.WriteTdr(c.acia, data)))
  }

  function ActAll(s: Session, events: seq<Event>): Session {
    if events == [] then s else Act(ActAll(s, events[..|events| - 1]), events[|events| - 1])
  }

  // ---------------------------------------------------------------- the receive path does not depend on the CPU

  /** Cassette selected, motor on, a UEF tape in the port, and the clock counter running. */
  ghost predicate Playing(c: Chain, samples: seq<Sample>) {
    && !Rs423(c.sula.scr) && c.sula.rxCounter >= 1
    && c.port.Some? && c.port.value.motorOn && c.port.value.deck.UefDeck? && c.port.value.deck.samples == samples
  }

  function View(c: Chain): Player
    requires c.port.Some? && c.port.value.deck.UefDeck?
  {
    Player(c.port.value.deck.at, c.sula.tapeCounter, c.sula.currentBit, c.sula.carrierCount,
           c.acia.pins.carrier, c.acia.rx)
  }

  /** The transmit half of a tick leaves the receive path alone. */
  lemma TransmitLeavesReceive(c: Chain, samples: seq<Sample>)
    requires Playing(c, samples)
    ensures var t := TickTx(c);
            && Playing(t, samples) && View(t) == View(c) && t.acia.cfg == c.acia.cfg && RxDue(t.sula) == RxDue(c.sula)
            && t.acia.inbox == c.acia.inbox && Pending(t.acia) == Pending(c.acia)
            && t.acia.sr.ovrn == c.acia.sr.ovrn && t.sula.rxCounter == c.sula.rxCounter
  {
  }

  lemma FetchMatches(c: Chain, samples: seq<Sample>)
    requires Playing(c, samples) && Fetches(c)
    ensures var q := Fetch(samples, View(c));
            && PortNext(c.port.value).deck.UefDeck? && q.at == PortNext(c.port.value).deck.at
            && q.tapeCounter == 0 && q.bit == LevelNow(c)
            && q.count == Counted(c.sula.carrierCount, FetchedCarrier(c))
            && q.present == Locked(c).pins.carrier && q.rx == Locked(c).rx
            && Locked(c).cfg == c.acia.cfg
  {
  }

  /** A tick is a clock of the tape player, or nothing of it; the characters are the player's. */
  lemma TickPlays(c: Chain, samples: seq<Sample>)
    requires Playing(c, samples)
    ensures Playing(TickRx(c), samples) && TickRx(c).acia.cfg == c.acia.cfg
    ensures if RxDue(c.sula) then
              Played(View(TickRx(c)), Emit(Got(c))) == PlayClock(c.acia.cfg.format, samples, View(c))
            else
              View(TickRx(c)) == View(c) && Got(c) == None
  {
    hide RxStep, Fetch, PortNext, Lock;
    if Fetches(c) {
      FetchMatches(c, samples);
      DeckStays(c, samples);
    }
  }

  lemma DeckStays(c: Chain, samples: seq<Sample>)
    requires Playing(c, samples)
    ensures var d := PortNext(c.port.value); d.motorOn && d.deck.UefDeck? && d.deck.samples == samples
  {
  }

  /** The number of receiver clocks in a run. */
  function RxClocks(s: Session, events: seq<Event>): nat {
    if events == [] then 0 else
      var before := events[..|events| - 1];
      RxClocks(s, before) +
        if events[|events| - 1] == Tick && RxDue(ActAll(s, before).chain.sula) then 1 else 0
  }

  lemma {:induction false} RunPlaysTape(s: Session, samples: seq<Sample>, events: seq<Event>)
    requires Playing(s.chain, samples)
    ensures var t := ActAll(s, events);
            var r := Play(s.chain.acia.cfg.format, samples, View(s.chain), RxClocks(s, events));
            && Playing(t.chain, samples) && t.chain.acia.cfg == s.chain.acia.cfg
            && View(t.chain) == r.player && t.chars == s.chars + r.chars
  {
    hide TickTx, TickRx, PlayClock, Got, RxDue, View, Playing;
    if events == [] {
      ViewNone(s, samples);
    } else {
      var init, e := events[..|events| - 1], events[|events| - 1];
      RunPlaysTape(s, samples, init);
      var before := ActAll(s, init);
      if e == Tick {
        TransmitLeavesReceive(before.chain, samples);
        TickPlays(TickTx(before.chain), samples);
      } else {
        AccessLeavesReceive(before.chain, samples, e);
      }
    }
  }

  lemma ViewNone(s: Session, samples: seq<Sample>)
    requires Playing(s.chain, samples)
    ensures ActAll(s, []) == s && RxClocks(s, []) == 0
    ensures Play(s.chain.acia.cfg.format, samples, View(s.chain), 0) == Played(View(s.chain), [])
  {
  }

  lemma AccessLeavesReceive(c: Chain, samples: seq<Sample>, e: Event)
    requires Playing(c, samples) && e != Tick
    ensures var t := Act(Session(c, [], [], 0), e).chain;
            Playing(t, samples) && View(t) == View(c) && t.acia.cfg == c.acia.cfg && t.sula == c.sula
  {
  }

  // ---------------------------------------------------------------- the CPU's side of the ledger

  /** Every character delivered was read, is waiting in the RDR, or was discarded. */
  ghost predicate Accounted(s: Session) {
    && AciaRuns.Consistent(s.chain.acia)
    && |s.chars| == |s.log| + |Pending(s.chain.acia)| + s.lost
    && (s.lost == 0 ==> s.chars == s.log + Pending(s.chain.acia)
                        && !s.chain.acia.inbox.overrunPending && !s.chain.acia.sr.ovrn)
  }

  lemma LockPending(a: Chip.State, count: nat, carrier: bool)
    requires AciaRuns.Consistent(a)
    ensures var b := Lock(a, count, carrier);
            && AciaRuns.Consistent(b)
            && (b.inbox.full ==> Pending(b) == Pending(a) && b.inbox == a.inbox && b.sr.ovrn == a.sr.ovrn)
            && (!b.inbox.full ==> Pending(b) == [] && (b.inbox == a.inbox || !b.inbox.overrunPending)
                                  && (b.sr.ovrn ==> a.sr.ovrn))
  {
    AciaRuns.StepKeepsConsistent(a, AciaRuns.CarrierOn);
    AciaRuns.StepKeepsConsistent(a, AciaRuns.CarrierOff);
    OpenInbox(a);
    OpenInbox(Lock(a, count, carrier));
    hide AciaRuns.Consistent;
  }

  lemma OpenInbox(a: Chip.State)
    requires AciaRuns.Consistent(a)
    ensures a.inbox.overrunPending ==> a.inbox.full
  {
  }

  lemma ClockPending(a: Chip.State)
    requires AciaRuns.Consistent(a)
    ensures var b, got := Chip.RxClock(a), Chip.Received(a);
            && AciaRuns.Consistent(b) && b.sr.ovrn == a.sr.ovrn
            && Pending(b) == (if got.Some? && !a.inbox.full then [got.value] else Pending(a))
            && b.inbox.overrunPending == (a.inbox.overrunPending || (got.Some? && a.inbox.full))
  {
    hide RxStep;
    AciaRuns.StepKeepsConsistent(a, AciaRuns.RxTick);
  }

  lemma LineKeeps(a: Chip.State, level: bool)
    requires AciaRuns.Consistent(a)
    ensures AciaRuns.Consistent(Chip.SetLine(a, level)) && Pending(Chip.SetLine(a, level)) == Pending(a)
  {
  }

  lemma TickAccounts(s: Session, samples: seq<Sample>)
    requires Accounted(s) && Playing(s.chain, samples)
    ensures Accounted(Act(s, Tick))
  {
    hide Lock, Chip.RxClock, Chip.Received, RxStep, Pending, LevelNow, AciaRuns.Consistent, Emit;
    var sent := TickTx(s.chain);
    TransmitLeavesReceive(s.chain, samples);
    TransmitKeepsConsistent(s.chain);
    if Clocks(sent) {
      var a, b, got := sent.acia, Locked(sent), Got(sent);
      LockOfTick(sent);
      LineKeeps(b, LevelNow(sent));
      ClockPending(AtClock(sent));
      ClockAccounts(s, a, b, got);
    } else {
      EmitNothing();
    }
  }

  lemma EmitNothing()
    ensures Emit(None) == []
  {
  }

  lemma TransmitKeepsConsistent(c: Chain)
    requires AciaRuns.Consistent(c.acia)
    ensures AciaRuns.Consistent(TickTx(c).acia) && TickTx(c).acia.inbox == c.acia.inbox
  {
    AciaRuns.StepKeepsConsistent(c.acia, AciaRuns.TxTick);
  }

  lemma LockOfTick(c: Chain)
    requires AciaRuns.Consistent(c.acia)
    ensures var a, b := c.acia, Locked(c);
            && AciaRuns.Consistent(b)
            && (b.inbox.full ==> Pending(b) == Pending(a) && b.inbox == a.inbox && b.sr.ovrn == a.sr.ovrn)
            && (!b.inbox.full ==> Pending(b) == [] && (b.inbox == a.inbox || !b.inbox.overrunPending)
                                  && (b.sr.ovrn ==> a.sr.ovrn))
            && |Pending(a)| == (if a.inbox.full then 1 else 0)
  {
    hide Lock;
    LockPending(c.acia, c.sula.carrierCount, FetchedCarrier(c));
  }

  /** The arithmetic of one receiver clock: a delivered character is waiting or discarded. */
  lemma ClockAccounts(s: Session, a: Chip.State, b: Chip.State, got: Option<Char>)
    requires Accounted(s) && Pending(a) == Pending(s.chain.acia) && a.inbox == s.chain.acia.inbox
    requires b.inbox.full ==> Pending(b) == Pending(a)
    requires !b.inbox.full ==> Pending(b) == []
    requires |Pending(a)| == (if a.inbox.full then 1 else 0)
    ensures var lost := (if a.inbox.full && !b.inbox.full then 1 else 0) + (if got.Some? && b.inbox.full then 1 else 0);
            var waiting := if got.Some? && !b.inbox.full then [got.value] else Pending(b);
            && |s.chars + Emit(got)| == |s.log| + |waiting| + s.lost + lost
            && (s.lost + lost == 0 ==> s.chars + Emit(got) == s.log + waiting)
  {
    hide Pending, AciaRuns.Consistent;
  }

  lemma AccessAccounts(s: Session, e: Event)
    requires Accounted(s) && e != Tick
    ensures Accounted(Act(s, e))
  {
    match e
    case Poll => AciaRuns.StepKeepsConsistent(s.chain.acia, AciaRuns.StatusRead);
    case Take => AciaRuns.StepKeepsConsistent(s.chain.acia, AciaRuns.DataRead);
    case Send(data) => AciaRuns.StepKeepsConsistent(s.chain.acia, AciaRuns.DataWrite(data));
  }

  lemma {:induction false} RunAccounts(s: Session, samples: seq<Sample>, events: seq<Event>)
    requires Accounted(s) && Playing(s.chain, samples)
    ensures Accounted(ActAll(s, events))
  {
    hide Accounted, Playing, Act;
    if events != [] {
      var init, e := events[..|events| - 1], events[|events| - 1];
      RunAccounts(s, samples, init);
      RunPlaysTape(s, samples, init);
      if e == Tick {
        TickAccounts(ActAll(s, init), samples);
      } else {
        AccessAccounts(ActAll(s, init), e);
      }
    }
  }

  // ---------------------------------------------------------------- the end-to-end theorem

  /** The board with a rewound tape and the motor just started, the ACIA set to 8N1. */
  ghost predicate ReadyToLoad(s: Session, chunks: seq<Chunk>)
    requires AllFramed(chunks)
  {
    var a := s.chain.acia;
    && Playing(s.chain, Flat(TapeSegments(chunks)))
    && AciaRuns.Consistent(a) && TapeLoading.Is8N1(a.cfg.format)
    && TapeLoading.AtStart(a.cfg.format, View(s.chain))
    && !a.inbox.full && !a.inbox.overrunPending && !a.sr.ovrn
    && s.chars == [] && s.log == [] && s.lost == 0
  }

  /** Enough receiver clocks for the whole tape. */
  ghost predicate TapePlayed(s: Session, chunks: seq<Chunk>, events: seq<Event>)
    requires AllFramed(chunks) && ReadyToLoad(s, chunks)
  {
    RxClocks(s, events)
    >= TapeLoading.WholeTape(s.chain.acia.cfg.format, View(s.chain), Flat(TapeSegments(chunks)))
  }

  /**
   * Whatever the CPU does and whenever: what it has read, with what waits in the RDR, is a prefix of the
   * tape's bytes with no parity, framing or overrun error as long as nothing was discarded; once the tape
   * has been played it is all of them, and exactly then nothing was discarded.
   */
  lemma BytesOnTapeAreBytesRead(s: Session, chunks: seq<Chunk>, events: seq<Event>)
    requires AllFramed(chunks) && TapeLoading.AllLed(chunks) && ReadyToLoad(s, chunks)
    requires |Flat(TapeSegments(chunks))| <= 0xffff_ffff
    ensures var t := ActAll(s, events);
            var read := t.log + Pending(t.chain.acia);
            && (t.lost == 0 ==> read <= TapeLoading.Received(Text(chunks)) && !t.chain.acia.sr.ovrn)
            && (TapePlayed(s, chunks, events) ==> (t.lost == 0 <==> read == TapeLoading.Received(Text(chunks))))
  {
    hide Flat, Play, ActAll, AciaRuns.Consistent, View, TapeLoading.AllLed;
    var samples := Flat(TapeSegments(chunks));
    var t := ActAll(s, events);
    RunPlaysTape(s, samples, events);
    RunAccounts(s, samples, events);
    TapeLoading.TapeDelivers(s.chain.acia.cfg.format, chunks, View(s.chain), RxClocks(s, events));
    assert t.chars == Play(s.chain.acia.cfg.format, samples, View(s.chain), RxClocks(s, events)).chars;
  }
}
