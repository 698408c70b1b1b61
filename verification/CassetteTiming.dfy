// How the loading session starts, how often the CPU must read, and how much leader the lock needs.

module CassetteTiming {
  import opened Bits
  import opened Receiver
  import opened TapeStreams
  import opened TapeText
  import opened TapePlayer
  import opened SerialUlaSpec
  import opened CassetteLoad
  import Chip = AciaSpec
  import Loading = TapeLoading
  import AciaRuns

  // ---------------------------------------------------------------- a polling rate that never overruns

  /** 16 MHz ticks for each receiver clock in cassette mode. */
  const CLOCK := 832

  ghost predicate Sound(f: Format, rx: Rx) {
    match rx.phase
    case RxIdle => true
    case RxStart => 1 <= rx.clocks < f.divisor / 2
    case RxData => rx.shiftCount < 8 && rx.clocks < f.divisor
    case RxParity => false
    case RxStop => rx.clocks < f.divisor
  }

  /** Clocks since the start edge of the character being received. */
  function Elapsed(f: Format, rx: Rx): nat {
    match rx.phase
    case RxIdle => 0
    case RxStart => rx.clocks
    case RxData => f.divisor / 2 + rx.shiftCount * f.divisor + rx.clocks
    case RxParity => 0
    case RxStop => f.divisor / 2 + 8 * f.divisor + rx.clocks
  }

  ghost predicate Divided8N1(f: Format) {
    f.divisor in {16, 64} && f.wordLength == 8 && f.parity == NoParity
  }

  lemma DataElapses(f: Format, rx: Rx, line: bool)
    requires Divided8N1(f) && Sound(f, rx) && rx.phase == RxData
    ensures var step := RxStep(f, rx, line);
            Sound(f, step.rx) && Elapsed(f, step.rx) <= Elapsed(f, rx) + 1 && step.got.None?
  {
    var d := f.divisor;
    assert (rx.shiftCount + 1) * d == rx.shiftCount * d + d;
    if rx.shiftCount == 7 {
      assert rx.shiftCount * d == 7 * d;
    }
  }

  lemma ElapsesByOne(f: Format, rx: Rx, line: bool)
    requires Divided8N1(f) && Sound(f, rx)
    ensures var step := RxStep(f, rx, line);
            && Sound(f, step.rx) && Elapsed(f, step.rx) <= Elapsed(f, rx) + 1
            && (step.got.Some? ==> Elapsed(f, rx) + 1 == FrameClocks(f) && Elapsed(f, step.rx) == 0)
  {
    if rx.phase == RxData {
      hide RxStep, Sound, Elapsed, FrameClocks;
      DataElapses(f, rx, line);
    } else if rx.phase == RxStart {
      assert 0 * f.divisor == 0;
    }
  }

  /** Ticks since the CPU last read the data register. */
  function SinceTake(events: seq<Event>): nat {
    if events == [] then 0 else
      var n := |events| - 1;
      if events[n] == Take then 0
      else SinceTake(events[..n]) + if events[n] == Tick then 1 else 0
  }

  /** The CPU reads at least once in every window of the given number of ticks. */
  ghost predicate ReadsWithin(events: seq<Event>, window: nat) {
    forall n | 0 <= n <= |events| :: SinceTake(events[..n]) <= window
  }

  /** If a character waits, the CPU has not read for as long as the receiver has been busy since. */
  ghost predicate Paced(c: Chain, since: nat) {
    var f := c.acia.cfg.format;
    && Divided8N1(f) && Sound(f, c.acia.rx) && 1 <= c.sula.rxCounter <= CLOCK
    && !c.acia.inbox.overrunPending && !c.acia.inbox.overrun && !c.acia.sr.ovrn
    && (c.acia.inbox.full ==> since >= CLOCK * Elapsed(f, c.acia.rx) + CLOCK - c.sula.rxCounter)
  }

  lemma LockPaces(a: Chip.State, count: nat, carrier: bool)
    requires Divided8N1(a.cfg.format) && Sound(a.cfg.format, a.rx)
    requires !a.inbox.overrunPending && !a.inbox.overrun && !a.sr.ovrn
    ensures var b := Lock(a, count, carrier);
            && b.cfg == a.cfg && Sound(b.cfg.format, b.rx) && Elapsed(b.cfg.format, b.rx) <= Elapsed(a.cfg.format, a.rx)
            && !b.inbox.overrunPending && !b.inbox.overrun && !b.sr.ovrn && (b.inbox.full ==> a.inbox.full)
  {
  }

  lemma ClockPaces(a: Chip.State, since: nat)
    requires Divided8N1(a.cfg.format) && Sound(a.cfg.format, a.rx)
    requires !a.inbox.overrunPending && !a.inbox.overrun && !a.sr.ovrn
    requires a.inbox.full ==> since >= CLOCK * (Elapsed(a.cfg.format, a.rx) + 1)
    requires since < CLOCK * FrameClocks(a.cfg.format)
    ensures var b := Chip.RxClock(a);
            && b.cfg == a.cfg && Sound(b.cfg.format, b.rx)
            && !b.inbox.overrunPending && !b.inbox.overrun && !b.sr.ovrn
            && (b.inbox.full ==> since >= CLOCK * Elapsed(b.cfg.format, b.rx))
  {
    if a.pins.carrier {
      hide RxStep, Sound, Elapsed, FrameClocks;
      ElapsesByOne(a.cfg.format, a.rx, a.pins.line);
    }
  }

  lemma TickPaces(c: Chain, samples: seq<Sample>, since: nat)
    requires Playing(c, samples) && Paced(c, since)
    requires since + 1 < CLOCK * FrameClocks(c.acia.cfg.format)
    ensures Paced(TickRx(TickTx(c)), since + 1) && TickRx(TickTx(c)).acia.cfg == c.acia.cfg
  {
    hide Lock, Chip.RxClock, Sound, Elapsed, FrameClocks, LevelNow;
    var sent := TickTx(c);
    TransmitLeavesReceive(c, samples);
    if Clocks(sent) {
      LockPaces(sent.acia, sent.sula.carrierCount, FetchedCarrier(sent));
      ClockPaces(AtClock(sent), since + 1);
    }
  }

  lemma AccessPaces(c: Chain, e: Event, since: nat)
    requires Paced(c, since) && e != Tick
    ensures Paced(Act(Session(c, [], [], 0), e).chain, if e == Take then 0 else since)
  {
    hide Sound, Elapsed;
  }

  /**
   * A CPU that reads the data register at least once in every 9.5 bit times never overruns it, on any
   * tape: a character takes that long from its start edge to its stop bit.
   */
  lemma {:induction false} PollingPreventsOverrun(s: Session, samples: seq<Sample>, events: seq<Event>, window: nat)
    requires Playing(s.chain, samples) && Paced(s.chain, 0)
    requires ReadsWithin(events, window) && window < CLOCK * FrameClocks(s.chain.acia.cfg.format)
    ensures var c := ActAll(s, events).chain;
            Paced(c, SinceTake(events)) && c.acia.cfg == s.chain.acia.cfg && !c.acia.sr.ovrn
  {
    hide Act, FrameClocks, Playing;
    if events != [] {
      var n := |events| - 1;
      forall k | 0 <= k <= n ensures SinceTake(events[..n][..k]) <= window {
        assert events[..n][..k] == events[..k];
      }
      PollingPreventsOverrun(s, samples, events[..n], window);
      RunPlaysTape(s, samples, events[..n]);
      RunPlaysTape(s, samples, events);
      assert events[..n + 1] == events;
      OneEventPaces(ActAll(s, events[..n]), samples, events[n], SinceTake(events[..n]));
    }
  }

  lemma OneEventPaces(s: Session, samples: seq<Sample>, e: Event, since: nat)
    requires Playing(s.chain, samples) && Paced(s.chain, since)
    requires e == Tick ==> since + 1 < CLOCK * FrameClocks(s.chain.acia.cfg.format)
    ensures Paced(Act(s, e).chain, if e == Take then 0 else if e == Tick then since + 1 else since)
  {
    hide Paced;
    if e == Tick {
      TickPaces(s.chain, samples, since);
    } else {
      AccessPaces(s.chain, e, since);
    }
  }

  // ---------------------------------------------------------------- getting ready

  /**
   * The usual start: a master reset and a control byte for 8N1 in any division, a rewound tape in the port, then an
   * SCR write that selects the cassette and starts the motor.
   */
  lemma StartingTheMotorIsReady(chunks: seq<Chunk>, s: Sula, control: byte, scr: byte, lastCarrier: bool)
    requires AllFramed(chunks)
    requires control / 4 % 8 == 5 && control % 4 != 3
    requires !MotorOn(s.scr) && s.tapeCounter == 0 && s.carrierCount == 0 && MotorOn(scr) && !Rs423(scr)
    ensures var a := AciaRuns.After(Chip.POWER_ON, [AciaRuns.Control(3), AciaRuns.Control(control)]);
            var deck := UefDeck(Flat(TapeSegments(chunks)), 0, lastCarrier);
            var c := WriteScr(Chain(s, a, Some(Port(false, deck))), scr);
            ReadyToLoad(Session(c, [], [], 0), chunks) && (control % 4 != 0 ==> Paced(c, 0)) &&
            c.acia.cfg.format == Format(Chip.ClockDivisor(control), 8, NoParity)
  {
    hide Flat, TapeSegments;
    AciaRuns.EveryRunIsConsistent([AciaRuns.Control(3), AciaRuns.Control(control)]);
    var r := Chip.MasterReset(Chip.POWER_ON);
    var a := AciaRuns.After(Chip.POWER_ON, [AciaRuns.Control(3), AciaRuns.Control(control)]);
    assert [AciaRuns.Control(3), AciaRuns.Control(control)][..1] == [AciaRuns.Control(3)];
    assert AciaRuns.After(Chip.POWER_ON, [AciaRuns.Control(3)]) == r by {
      assert AciaRuns.After(Chip.POWER_ON, []) == Chip.POWER_ON;
    }
    assert a == Chip.Configure(r, control);
    AciaRuns.StepKeepsConsistent(a, AciaRuns.CtsLow);
  }

  // ---------------------------------------------------------------- the lock needs 99 leader bits

  /** So many leader bits, then a byte whose bits are all ones. */
  function OneByteTape(n: nat): (chunks: seq<Chunk>)
    ensures AllFramed(chunks)
  {
    [CarrierTone(n), TapeDataBlock([0xff])]
  }

  /** Where the parts of that tape lie. */
  lemma OneByteParts(samples: seq<Sample>, n: nat)
    requires samples == Carried(Mark(n)) + Carried([false]) + Carried(Mark(9))
    ensures |samples| == n + 10 && Ahead(samples, 0, Carried(Mark(n))) && Ahead(samples, n + 1, Carried(Mark(9)))
    ensures samples[n] == Sample(false, true)
  {
    var leader, start, ones := Carried(Mark(n)), Carried([false]), Carried(Mark(9));
    assert samples[0..n + 10] == leader + start + ones;
    Loading.AheadParts(samples, 0, leader + start, ones);
    Loading.AheadParts(samples, 0, leader, start);
  }

  /** With fewer than 99 leader bits the start bit is missed: the byte of ones is lost altogether. */
  lemma ShortLeaderLosesTheByte(f: Format, p: Player, n: nat)
    requires Loading.Is8N1(f) && AtBoundary(f, p) && p.rx.phase == RxIdle && p.at == 0 && p.count == 0 && n < 99
    ensures var samples := Flat(TapeSegments(OneByteTape(n)));
            PlayBits(f, samples, p, |samples|).chars == [] && |samples| == n + 10
  {
    hide Play, PlayBits, Run, Flat, Ahead, Carried, TapeSegments;
    var samples := Flat(TapeSegments(OneByteTape(n)));
    OneByteIs(n);
    OneByteParts(samples, n);
    PlaysTone(f, samples, p, n);
    var q := PlayBits(f, samples, p, n).player;
    PlaysCarriedBit(f, samples, q);
    OneBit(f, samples, q);
    BitsGoOn(f, samples, p, n, 1);
    var r := PlayBits(f, samples, p, n + 1).player;
    PlaysTone(f, samples, r, 9);
    BitsGoOn(f, samples, p, n + 1, 9);
  }

  /** Ninety-nine leader bits are the exact threshold: the byte is read if and only if there are as many. */
  lemma LeaderThreshold(f: Format, p: Player, n: nat)
    requires Loading.Is8N1(f) && AtBoundary(f, p) && p.rx.phase == RxIdle && p.at == 0 && p.count == 0
    requires n + 10 <= 0xffff_ffff
    ensures var samples := Flat(TapeSegments(OneByteTape(n)));
            PlayBits(f, samples, p, |samples|).chars == if n < 99 then [] else [Char(0xff, false, false)]
  {
    hide PlayBits, Flat, AtBoundary;
    if n < 99 {
      ShortLeaderLosesTheByte(f, p, n);
    } else {
      OneByteLed(n);
      OneByteIs(n);
      Loading.BitsDeliver(f, OneByteTape(n), p, |Flat(TapeSegments(OneByteTape(n)))|);
    }
  }

  lemma OneByteLed(n: nat)
    requires n >= 99
    ensures Loading.AllLed(OneByteTape(n)) && Loading.Received(Text(OneByteTape(n))) == [Char(0xff, false, false)]
  {
    var tone := CarrierTone(n);
    assert OneByteTape(n)[..1] == [tone] && [tone][..0] == [];
    assert Loading.Lead([tone]) == n && Loading.AllLed([tone]);
    assert Text([tone]) == [] && Text(OneByteTape(n)) == [] + [0xff];
  }

  lemma OneBit(f: Format, samples: seq<Sample>, p: Player)
    ensures var r := Play(f, samples, p, f.divisor); PlayBits(f, samples, p, 1) == Played(r.player, [] + r.chars)
  {
    hide Play;
    assert PlayBits(f, samples, p, 0) == Played(p, []);
  }

  lemma OneByteIs(n: nat)
    ensures Flat(TapeSegments(OneByteTape(n))) == Carried(Mark(n)) + Carried([false]) + Carried(Mark(9))
  {
    hide Flat, Frames8N1;
    var tone, block := CarrierTone(n), TapeDataBlock([0xff]);
    assert [tone, block][..1] == [tone] && TapeSegments([]) == [];
    assert TapeSegments([tone]) == [] + ChunkSegments(tone);
    FlatConcat(TapeSegments([tone]), ChunkSegments(block));
    assert [] + ChunkSegments(tone) == ChunkSegments(tone);
    Loading.ChunkLayout(tone);
    Loading.ChunkLayout(block);
    NoFrames();
    OnesAreMark();
    assert Loading.Layout(tone) == Carried(Mark(n));
    assert Loading.Layout(block) == Carried([false] + Mark(9));
    assert Carried([false] + Mark(9)) == Carried([false]) + Carried(Mark(9));
  }

  lemma OnesAreMark()
    ensures Frames8N1([0xff]) == [false] + Mark(9)
  {
    forall k: nat | k < 8 ensures DataBits(0xff, 8)[k] {
      DataBitAt(0xff, 8, k);
      Powers();
      OnesAreSet(0xff, k, 8);
    }
    var bits := DataBits(0xff, 8);
    assert [0xff][..0] == [];
    assert Frames8N1([0xff]) == [] + Frame8N1(0xff) && Frame8N1(0xff) == [false] + bits + [true];
    hide DataBits, Bit, Frames8N1, Frame8N1;
    assert [false] + bits + [true] == [false] + Mark(9);
  }
}
