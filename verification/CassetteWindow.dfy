// How often the CPU must read while a tape loads: the widest window in which one read is enough, for every tape that
// leaves so many bits with a carrier behind its data.

module CassetteWindow {
  import opened Bits
  import opened Receiver
  import opened TapeStreams
  import opened TapeText
  import opened TapePlayer
  import opened SerialUlaSpec
  import opened CassetteLoad
  import opened CassetteTiming
  import opened TapeTrails
  import opened TrialTapes
  import Loading = TapeLoading
  import Chip = AciaSpec
  import AciaRuns

  /** A tape that can be loaded, and the session at its start. */
  ghost predicate Loadable(s: Session, chunks: seq<Chunk>)
    requires AllFramed(chunks)
  {
    ReadyToLoad(s, chunks) && Loading.AllLed(chunks) && |Flat(TapeSegments(chunks))| <= 0xffff_ffff
  }

  /** The motor just started over the tape, nothing delivered and nothing read. */
  ghost predicate Started(s: Session, samples: seq<Sample>) {
    Playing(s.chain, samples) && Accounted(s) && s.chars == [] && s.log == [] && s.lost == 0
  }

  lemma LoadableStarts(s: Session, chunks: seq<Chunk>)
    requires AllFramed(chunks) && Loadable(s, chunks)
    ensures Started(s, Flat(TapeSegments(chunks)))
    ensures Loading.Is8N1(Form(s)) && Loading.AtStart(Form(s), View(s.chain))
  {
    hide Flat, Loading.AllLed, AciaRuns.Consistent;
  }

  function Form(s: Session): Format {
    s.chain.acia.cfg.format
  }

  // ---------------------------------------------------------------- from the motor's start

  /** Clocks before the first bit is fetched. */
  function BeforeFirst(f: Format, p: Player): int {
    f.divisor - 1 - p.tapeCounter
  }

  /** After those the player is at a bit's boundary; before, it has neither a carrier nor a character. */
  lemma StartsAtBoundary(f: Format, chunks: seq<Chunk>, p: Player, k: nat)
    requires AllFramed(chunks) && Loading.Is8N1(f) && Loading.AtStart(f, p)
    requires Loading.AllLed(chunks) && |Flat(TapeSegments(chunks))| <= 0xffff_ffff
    ensures var samples, q, n := Flat(TapeSegments(chunks)), p.(tapeCounter := f.divisor - 1), BeforeFirst(f, p);
            && Loads(f, chunks, q) && 0 <= n
            && (k <= n ==> Play(f, samples, p, k).chars == [] && !Play(f, samples, p, k).player.present)
            && (n <= k ==> Play(f, samples, p, k).chars == Play(f, samples, q, k - n).chars &&
                           Play(f, samples, p, k).player == Play(f, samples, q, k - n).player)
  {
    hide Play, Flat;
    var samples, n := Flat(TapeSegments(chunks)), BeforeFirst(f, p);
    Loading.StartsPlaying(f, samples, p);
    if k <= n {
      HoldsLevel(f, samples, p, k);
    }
    if n <= k {
      PlayOn(f, samples, p, n, k - n);
    }
  }

  lemma LingersFromStart(f: Format, tape: seq<Chunk>, p: Player, trail: nat, h: nat, k: nat)
    requires AllFramed(tape) && Loading.Is8N1(f) && Loading.AtStart(f, p) && Trailed(tape, trail)
    requires Loading.AllLed(tape) && |Flat(TapeSegments(tape))| <= 0xffff_ffff
    requires Play(f, Flat(TapeSegments(tape)), p, k).player.present
    requires !Play(f, Flat(TapeSegments(tape)), p, k + 1).player.present
    requires h <= k < h + Linger(f, trail)
    ensures Play(f, Flat(TapeSegments(tape)), p, h).chars == Play(f, Flat(TapeSegments(tape)), p, k).chars
  {
    hide Play, Flat, Trailed, Loads, Loading.AllLed, Linger, Text, Loading.Received;
    var n, q := BeforeFirst(f, p), p.(tapeCounter := f.divisor - 1);
    StartsAtBoundary(f, tape, p, k);
    StartsAtBoundary(f, tape, p, k + 1);
    if h < n {
      StartsAtBoundary(f, tape, p, n);
      StartsAtBoundary(f, tape, p, h);
      LingersBeforeDrop(f, tape, q, trail, 0, k - n);
    } else {
      StartsAtBoundary(f, tape, p, h);
      LingersBeforeDrop(f, tape, q, trail, h - n, k - n);
    }
  }

  lemma OneInTenFromStart(f: Format, tape: seq<Chunk>, p: Player, h: nat, k: nat)
    requires AllFramed(tape) && Loading.Is8N1(f) && Loading.AtStart(f, p)
    requires Loading.AllLed(tape) && |Flat(TapeSegments(tape))| <= 0xffff_ffff
    requires h <= k <= h + 10 * f.divisor
    ensures |Play(f, Flat(TapeSegments(tape)), p, k).chars| <= |Play(f, Flat(TapeSegments(tape)), p, h).chars| + 1
  {
    hide Play, Flat, Loads, Loading.AllLed;
    var n, q := BeforeFirst(f, p), p.(tapeCounter := f.divisor - 1);
    StartsAtBoundary(f, tape, p, h);
    StartsAtBoundary(f, tape, p, k);
    StartsAtBoundary(f, tape, p, n);
    if n <= k {
      OneInTenBits(f, tape, q, if h < n then 0 else h - n, k - n);
    }
  }

  // ---------------------------------------------------------------- ticks and receiver clocks

  /** Receiver clocks before the CPU's last read of the data register. */
  function ClocksAtTake(s: Session, events: seq<Event>): nat {
    if events == [] then 0
    else if events[|events| - 1] == Take then RxClocks(s, events)
    else ClocksAtTake(s, events[..|events| - 1])
  }

  lemma TickCounts(c: Chain, samples: seq<Sample>)
    requires Playing(c, samples)
    ensures var t := TickRx(TickTx(c));
            && RxDue(TickTx(c).sula) == RxDue(c.sula) && (RxDue(c.sula) <==> c.sula.rxCounter == 1)
            && t.sula.rxCounter == if c.sula.rxCounter == 1 then CLOCK else c.sula.rxCounter - 1
  {
    hide LevelNow, Fetches, FetchedCarrier, Lock, Chip.TxClock, PortRecord;
  }

  /** So many receiver clocks since the last read need 832 ticks each, but for the first. */
  lemma {:induction false} ClocksSinceTake(s: Session, samples: seq<Sample>, events: seq<Event>)
    requires Playing(s.chain, samples)
    ensures var c, k, r := RxClocks(s, events), ClocksAtTake(s, events), ActAll(s, events).chain.sula.rxCounter;
            && k <= c && 1 <= r
            && (k < c ==> r <= CLOCK && CLOCK * (c - k) <= SinceTake(events) + r - 1)
  {
    hide TickTx, TickRx, Playing;
    if events == [] {
      StartCounts(s, samples);
    } else {
      var n := |events| - 1;
      var before := ActAll(s, events[..n]);
      ClocksSinceTake(s, samples, events[..n]);
      RunPlaysTape(s, samples, events[..n]);
      if events[n] == Tick {
        TickCounts(before.chain, samples);
      } else {
        AccessLeavesReceive(before.chain, samples, events[n]);
      }
    }
  }

  lemma StartCounts(s: Session, samples: seq<Sample>)
    requires Playing(s.chain, samples)
    ensures s.chain.sula.rxCounter >= 1
  {
  }

  // ---------------------------------------------------------------- losses

  /** A tick loses a character only by a drop of the carrier, or by delivering one onto another. */
  lemma TickLosses(s: Session, samples: seq<Sample>)
    requires Playing(s.chain, samples)
    ensures var t := Act(s, Tick);
            t.lost == s.lost ||
            (RxDue(s.chain.sula) && s.chain.acia.inbox.full &&
             ((View(s.chain).present && !View(t.chain).present) || |t.chars| == |s.chars| + 1))
  {
    hide TickTx, Fetch, RxStep, LevelNow, Playing, Chip.RxClock, Chip.Received;
    var sent := TickTx(s.chain);
    TransmitLeavesReceive(s.chain, samples);
    if Clocks(sent) {
      LockEmpties(sent.acia, sent.sula.carrierCount, FetchedCarrier(sent));
      ClockKeepsPins(AtClock(sent));
    }
    assert Playing(sent, samples);
    PlayingHasTape(sent, samples);
    PlayingHasTape(s.chain, samples);
  }

  lemma PlayingHasTape(c: Chain, samples: seq<Sample>)
    requires Playing(c, samples)
    ensures c.port.Some? && c.port.value.deck.UefDeck?
  {
  }

  lemma LockEmpties(a: Chip.State, count: nat, carrier: bool)
    ensures var b := Lock(a, count, carrier);
            && (b.inbox.full ==> a.inbox.full)
            && (a.inbox.full && !b.inbox.full ==> a.pins.carrier && !b.pins.carrier)
  {
  }

  lemma ClockKeepsPins(a: Chip.State)
    ensures Chip.RxClock(a).pins == a.pins
  {
  }

  // ---------------------------------------------------------------- windows that lose nothing

  /** Receiver clocks that a character waits safely: until the next one at the least, or until the carrier drops. */
  function Patience(f: Format, trail: nat): nat
    requires ValidFormat(f)
  {
    if 10 * f.divisor <= Linger(f, trail) then 10 * f.divisor else Linger(f, trail)
  }

  lemma PatienceBounds(f: Format, trail: nat)
    requires ValidFormat(f)
    ensures Patience(f, trail) <= 10 * f.divisor && Patience(f, trail) <= Linger(f, trail)
  {
  }

  /** From clock k to clock c + 1 no second character comes, nor does the carrier drop upon one at clock c + 1. */
  ghost predicate Apart(f: Format, samples: seq<Sample>, p: Player, k: nat, c: nat) {
    var read, now, next := Play(f, samples, p, k), Play(f, samples, p, c), Play(f, samples, p, c + 1);
    && |next.chars| <= |read.chars| + 1
    && (now.player.present && !next.player.present ==> now.chars == read.chars)
  }

  /** A tape on which every character can wait for so many clocks. */
  ghost predicate Waits(f: Format, samples: seq<Sample>, p: Player, clocks: nat) {
    forall k: nat, c: nat | k <= c < k + clocks :: Apart(f, samples, p, k, c)
  }

  /** Within the receiver's patience neither a second character comes nor a drop upon one. */
  lemma TapeWaits(f: Format, tape: seq<Chunk>, p: Player, trail: nat)
    requires AllFramed(tape) && Loading.Is8N1(f) && Loading.AtStart(f, p) && Trailed(tape, trail)
    requires Loading.AllLed(tape) && |Flat(TapeSegments(tape))| <= 0xffff_ffff
    ensures Waits(f, Flat(TapeSegments(tape)), p, Patience(f, trail))
  {
    hide Flat, Play, Trailed, Linger, Loading.AllLed, Loading.AtStart, Patience;
    PatienceBounds(f, trail);
    var samples := Flat(TapeSegments(tape));
    forall k: nat, c: nat | k <= c < k + Patience(f, trail) ensures Apart(f, samples, p, k, c) {
      OneInTenFromStart(f, tape, p, k, c + 1);
      if Play(f, samples, p, c).player.present && !Play(f, samples, p, c + 1).player.present {
        LingersFromStart(f, tape, p, trail, k, c);
      }
    }
  }

  /** A session that is where its player is after so many clocks. */
  ghost predicate Follows(s: Session, samples: seq<Sample>, t: Session, clocks: nat) {
    && Playing(s.chain, samples) && Playing(t.chain, samples)
    && Play(Form(s), samples, View(s.chain), clocks) == Played(View(t.chain), t.chars)
  }

  lemma RunFollows(s: Session, samples: seq<Sample>, events: seq<Event>)
    requires Started(s, samples)
    ensures Follows(s, samples, ActAll(s, events), RxClocks(s, events)) && Accounted(ActAll(s, events))
  {
    hide Play, ActAll, View, RxClocks, Playing, Accounted;
    RunPlaysTape(s, samples, events);
    RunAccounts(s, samples, events);
    assert [] + ActAll(s, events).chars == ActAll(s, events).chars;
  }

  /** A tick that is due is a receiver clock more. */
  lemma OneTickOn(s: Session, samples: seq<Sample>, events: seq<Event>)
    requires Started(s, samples) && RxDue(ActAll(s, events).chain.sula)
    ensures Follows(s, samples, Act(ActAll(s, events), Tick), RxClocks(s, events) + 1)
  {
    hide Act, ActAll, RxClocks, RxDue, Follows, Started;
    OneEventOn(s, events, Tick);
    RunFollows(s, samples, events + [Tick]);
  }

  lemma OneEventOn(s: Session, events: seq<Event>, e: Event)
    ensures ActAll(s, events + [e]) == Act(ActAll(s, events), e)
    ensures RxClocks(s, events + [e])
         == RxClocks(s, events) + if e == Tick && RxDue(ActAll(s, events).chain.sula) then 1 else 0
  {
    hide Act, RxDue;
    assert (events + [e])[..|events|] == events;
  }

  lemma ClocksInWindow(s: Session, samples: seq<Sample>, events: seq<Event>, clocks: nat)
    requires Playing(s.chain, samples) && RxDue(ActAll(s, events).chain.sula)
    requires SinceTake(events) < CLOCK * clocks
    ensures ClocksAtTake(s, events) <= RxClocks(s, events) < ClocksAtTake(s, events) + clocks
  {
    hide ActAll, RxClocks, ClocksAtTake, SinceTake, Playing;
    ClocksSinceTake(s, samples, events);
    RunPlaysTape(s, samples, events);
    DueAtOne(ActAll(s, events).chain, samples);
  }

  lemma PendingOne(s: Session)
    requires Accounted(s) && s.lost == 0
    ensures s.chain.acia.inbox.full ==> |s.chars| == |s.log| + 1
  {
  }

  lemma DueAtOne(c: Chain, samples: seq<Sample>)
    requires Playing(c, samples) && RxDue(c.sula)
    ensures c.sula.rxCounter == 1
  {
  }

  /** Nothing has been lost, and what the CPU has read is as much as had been delivered when it last read. */
  ghost predicate ReadUp(s: Session, samples: seq<Sample>, events: seq<Event>)
    requires Playing(s.chain, samples)
  {
    var t := ActAll(s, events);
    && t.lost == 0
    && |t.log| == |Play(Form(s), samples, View(s.chain), ClocksAtTake(s, events)).chars|
  }

  /** A tick within the window loses nothing. */
  lemma TimelyTick(s: Session, samples: seq<Sample>, events: seq<Event>, clocks: nat)
    requires Started(s, samples) && Waits(Form(s), samples, View(s.chain), clocks)
    requires ReadUp(s, samples, events) && SinceTake(events) < CLOCK * clocks
    ensures Act(ActAll(s, events), Tick).lost == 0
  {
    hide Play, ActAll, Act, RxClocks, ClocksAtTake, SinceTake, Accounted, RxDue;
    var before := ActAll(s, events);
    RunFollows(s, samples, events);
    PendingOne(before);
    TickLosses(before, samples);
    if RxDue(before.chain.sula) {
      OneTickOn(s, samples, events);
      ClocksInWindow(s, samples, events, clocks);
      assert Apart(Form(s), samples, View(s.chain), ClocksAtTake(s, events), RxClocks(s, events));
    }
  }

  /** A CPU that reads while characters can wait loses nothing. */
  lemma {:induction false} TimelyReadsKeepUp(s: Session, samples: seq<Sample>, events: seq<Event>, clocks: nat)
    requires Started(s, samples) && Waits(Form(s), samples, View(s.chain), clocks)
    requires ReadsWithin(events, CLOCK * clocks)
    ensures ReadUp(s, samples, events)
  {
    hide Play, Act, Accounted, ReadsWithin, SinceTake, Waits;
    if events == [] {
      NothingRead(s, samples);
    } else {
      var n := |events| - 1;
      var before := ActAll(s, events[..n]);
      FewerReadsWithin(events, CLOCK * clocks);
      TimelyReadsKeepUp(s, samples, events[..n], clocks);
      RunFollows(s, samples, events[..n]);
      if events[n] == Tick {
        TimelyTick(s, samples, events[..n], clocks);
        TickKeepsLog(before);
      } else {
        AccessReads(before, events[n]);
      }
    }
  }

  lemma NothingRead(s: Session, samples: seq<Sample>)
    requires Playing(s.chain, samples) && s.log == [] && s.lost == 0
    ensures ReadUp(s, samples, [])
  {
  }

  lemma TickKeepsLog(s: Session)
    ensures Act(s, Tick).log == s.log
  {
  }

  lemma AccessReads(s: Session, e: Event)
    requires Accounted(s) && s.lost == 0 && e != Tick
    ensures var t := Act(s, e);
            t.lost == 0 && (e == Take ==> |t.log| == |s.chars|) && (e != Take ==> t.log == s.log)
  {
  }

  lemma FewerReadsWithin(events: seq<Event>, window: nat)
    requires events != [] && ReadsWithin(events, window)
    ensures ReadsWithin(events[..|events| - 1], window)
    ensures events[|events| - 1] == Tick ==> SinceTake(events[..|events| - 1]) < window
  {
    var n := |events| - 1;
    forall k | 0 <= k <= n ensures SinceTake(events[..n][..k]) <= window {
      assert events[..n][..k] == events[..k];
    }
    assert events[..n + 1] == events;
  }

  lemma WiderWindow(events: seq<Event>, window: nat, wider: nat)
    requires ReadsWithin(events, window) && window <= wider
    ensures ReadsWithin(events, wider)
  {
  }

  /**
   * End to end, over the CPU's schedule: on any tape that leaves so many carrier bits behind its data, a CPU that
   * reads the data register within the receiver's patience has lost nothing and seen no error, and has read the whole
   * tape once it has been played.
   */
  lemma TimelyReadsLoadTheTape(s: Session, chunks: seq<Chunk>, events: seq<Event>, trail: nat, window: nat)
    requires AllFramed(chunks) && Loadable(s, chunks) && Trailed(chunks, trail)
    requires ReadsWithin(events, window) && window <= CLOCK * Patience(Form(s), trail)
    ensures var t := ActAll(s, events);
            var read := t.log + Pending(t.chain.acia);
            && t.lost == 0 && !t.chain.acia.sr.ovrn && read <= Loading.Received(Text(chunks))
            && (TapePlayed(s, chunks, events) ==> read == Loading.Received(Text(chunks)))
  {
    LoadableStarts(s, chunks);
    hide Flat, Play, ActAll, Started, Waits, Trailed, Patience, Loading.AtStart, Loading.AllLed;
    var samples := Flat(TapeSegments(chunks));
    TapeWaits(Form(s), chunks, View(s.chain), trail);
    WiderWindow(events, window, CLOCK * Patience(Form(s), trail));
    TimelyReadsKeepUp(s, samples, events, Patience(Form(s), trail));
    BytesOnTapeAreBytesRead(s, chunks, events);
  }

  /** On any tape at all, half a bit and a clock is soon enough: so long after a byte at the least the carrier drops. */
  lemma AnyTapeLoads(s: Session, chunks: seq<Chunk>, events: seq<Event>, window: nat)
    requires AllFramed(chunks) && Loadable(s, chunks) && Form(s).divisor > 1
    requires ReadsWithin(events, window) && window <= CLOCK * (Form(s).divisor / 2 + 1)
    ensures var t := ActAll(s, events);
            var read := t.log + Pending(t.chain.acia);
            && t.lost == 0 && !t.chain.acia.sr.ovrn && read <= Loading.Received(Text(chunks))
            && (TapePlayed(s, chunks, events) ==> read == Loading.Received(Text(chunks)))
  {
    LoadableStarts(s, chunks);
    hide Flat, Play, ActAll, Started, Trailed, Patience, Loading.AtStart, Loading.AllLed, Loadable, ReadsWithin;
    EveryTapeTrailsNone(chunks);
    PatienceIs(Form(s), 0);
    TimelyReadsLoadTheTape(s, chunks, events, 0, window);
  }

  // ---------------------------------------------------------------- a window too wide

  /** A read after every tick. */
  function Busy(n: nat): seq<Event> {
    if n == 0 then [] else Busy(n - 1) + [Tick] + [Take]
  }

  /** Then ticks alone. */
  function Idle(events: seq<Event>, n: nat): seq<Event> {
    if n == 0 then events else Idle(events, n - 1) + [Tick]
  }

  lemma SinceOneMore(events: seq<Event>, e: Event)
    ensures SinceTake(events + [e]) == if e == Take then 0 else SinceTake(events) + if e == Tick then 1 else 0
  {
    assert (events + [e])[..|events|] == events;
  }

  lemma OneMoreWithin(events: seq<Event>, e: Event, window: nat)
    requires ReadsWithin(events, window) && SinceTake(events + [e]) <= window
    ensures ReadsWithin(events + [e], window)
  {
    var more := events + [e];
    forall n | 0 <= n <= |more| ensures SinceTake(more[..n]) <= window {
      if n <= |events| {
        assert more[..n] == events[..n];
      } else {
        assert more[..n] == more;
      }
    }
  }

  lemma {:induction false} BusyReads(n: nat)
    ensures ReadsWithin(Busy(n), 1) && SinceTake(Busy(n)) == 0
  {
    hide ReadsWithin, SinceTake;
    if n == 0 {
      assert ReadsWithin([], 1) && SinceTake([]) == 0 by { NothingSince(); }
    } else {
      BusyReads(n - 1);
      SinceOneMore(Busy(n - 1), Tick);
      OneMoreWithin(Busy(n - 1), Tick, 1);
      SinceOneMore(Busy(n - 1) + [Tick], Take);
      OneMoreWithin(Busy(n - 1) + [Tick], Take, 1);
    }
  }

  lemma NothingSince()
    ensures ReadsWithin([], 1) && SinceTake([]) == 0
  {
  }

  lemma {:induction false} IdleReads(events: seq<Event>, n: nat, window: nat)
    requires ReadsWithin(events, window) && SinceTake(events) == 0 && n <= window
    ensures ReadsWithin(Idle(events, n), window) && SinceTake(Idle(events, n)) == n
  {
    hide ReadsWithin, SinceTake;
    if n > 0 {
      IdleReads(events, n - 1, window);
      SinceOneMore(Idle(events, n - 1), Tick);
      OneMoreWithin(Idle(events, n - 1), Tick, window);
    }
  }

  lemma {:induction false} IdleKeepsLog(s: Session, events: seq<Event>, n: nat)
    ensures ActAll(s, Idle(events, n)).log == ActAll(s, events).log
  {
    hide ActAll, RxClocks;
    if n > 0 {
      IdleKeepsLog(s, events, n - 1);
      OneEventOn(s, Idle(events, n - 1), Tick);
      TickKeepsLog(ActAll(s, Idle(events, n - 1)));
    }
  }

  /** How many receiver clocks so many ticks make. */
  ghost predicate InTime(s: Session, samples: seq<Sample>, events: seq<Event>, ticks: nat) {
    var c, from, r := RxClocks(s, events), s.chain.sula.rxCounter, ActAll(s, events).chain.sula.rxCounter;
    && Playing(ActAll(s, events).chain, samples) && 1 <= r && (c > 0 ==> r <= CLOCK)
    && ticks + r == from + CLOCK * c
  }

  lemma StartInTime(s: Session, samples: seq<Sample>)
    requires Playing(s.chain, samples)
    ensures InTime(s, samples, [], 0)
  {
  }

  lemma EventInTime(s: Session, samples: seq<Sample>, events: seq<Event>, ticks: nat, e: Event)
    requires InTime(s, samples, events, ticks)
    ensures InTime(s, samples, events + [e], if e == Tick then ticks + 1 else ticks)
  {
    hide ActAll, RxClocks, Playing, RxDue, TickTx, TickRx;
    OneEventOn(s, events, e);
    if e == Tick {
      TickCounts(ActAll(s, events).chain, samples);
      TickPlaysOn(ActAll(s, events).chain, samples);
    } else {
      AccessLeavesReceive(ActAll(s, events).chain, samples, e);
    }
  }

  lemma TickPlaysOn(c: Chain, samples: seq<Sample>)
    requires Playing(c, samples)
    ensures Playing(TickRx(TickTx(c)), samples)
  {
    hide TickTx, TickRx, Playing;
    TransmitLeavesReceive(c, samples);
    TickPlays(TickTx(c), samples);
  }

  lemma {:induction false} BusyInTime(s: Session, samples: seq<Sample>, n: nat)
    requires Playing(s.chain, samples)
    ensures InTime(s, samples, Busy(n), n)
  {
    hide InTime, Playing;
    if n == 0 {
      StartInTime(s, samples);
    } else {
      BusyInTime(s, samples, n - 1);
      EventInTime(s, samples, Busy(n - 1), n - 1, Tick);
      EventInTime(s, samples, Busy(n - 1) + [Tick], n, Take);
    }
  }

  lemma {:induction false} IdleInTime(s: Session, samples: seq<Sample>, events: seq<Event>, ticks: nat, n: nat)
    requires InTime(s, samples, events, ticks)
    ensures InTime(s, samples, Idle(events, n), ticks + n)
  {
    hide InTime;
    if n > 0 {
      IdleInTime(s, samples, events, ticks, n - 1);
      EventInTime(s, samples, Idle(events, n - 1), ticks + n - 1, Tick);
    }
  }

  /** A run that reads until just before the given receiver clock and then not for so many clocks. */
  function LateRun(s: Session, at: nat, clocks: nat): seq<Event>
    requires s.chain.sula.rxCounter >= 1 && at >= 1
  {
    Idle(Busy(s.chain.sula.rxCounter + CLOCK * (at - 1) - 1), CLOCK * clocks + 1)
  }

  lemma LateRunClocks(s: Session, samples: seq<Sample>, at: nat, clocks: nat)
    requires Playing(s.chain, samples) && at >= 1
    ensures RxClocks(s, Busy(s.chain.sula.rxCounter + CLOCK * (at - 1) - 1)) == at - 1
    ensures RxClocks(s, LateRun(s, at, clocks)) == at + clocks
  {
    hide Playing, RxClocks, ActAll;
    StartCounts(s, samples);
    var n := s.chain.sula.rxCounter + CLOCK * (at - 1) - 1;
    BusyInTime(s, samples, n);
    IdleInTime(s, samples, Busy(n), n, CLOCK * clocks + 1);
  }

  lemma LateRunReads(s: Session, at: nat, clocks: nat, window: nat)
    requires s.chain.sula.rxCounter >= 1 && at >= 1 && CLOCK * clocks < window
    ensures ReadsWithin(LateRun(s, at, clocks), window)
  {
    hide ReadsWithin, SinceTake;
    var n := s.chain.sula.rxCounter + CLOCK * (at - 1) - 1;
    BusyReads(n);
    WiderWindow(Busy(n), 1, window);
    IdleReads(Busy(n), CLOCK * clocks + 1, window);
  }

  /** Nothing has come before the given clock; so many clocks after it, a character and a drop, or two characters. */
  ghost predicate Tries(f: Format, samples: seq<Sample>, p: Player, at: int, clocks: nat) {
    && at >= 1 && Play(f, samples, p, at - 1).chars == []
    && var r := Play(f, samples, p, at + clocks);
       |r.chars| >= if r.player.present then 2 else 1
  }

  /** Then the late run loses one. */
  lemma LateRunLoses(s: Session, samples: seq<Sample>, at: nat, clocks: nat)
    requires Started(s, samples) && Tries(Form(s), samples, View(s.chain), at, clocks)
    ensures ActAll(s, LateRun(s, at, clocks)).lost > 0
  {
    hide Playing, RxClocks, ActAll, Play, View, Accounted;
    StartCounts(s, samples);
    var n := s.chain.sula.rxCounter + CLOCK * (at - 1) - 1;
    LateRunClocks(s, samples, at, clocks);
    RunFollows(s, samples, Busy(n));
    RunFollows(s, samples, LateRun(s, at, clocks));
    NothingLogged(ActAll(s, Busy(n)));
    IdleKeepsLog(s, Busy(n), CLOCK * clocks + 1);
    SomeLost(ActAll(s, LateRun(s, at, clocks)), samples);
  }

  lemma NothingLogged(t: Session)
    requires Accounted(t) && t.chars == []
    ensures t.log == []
  {
  }

  lemma SomeLost(t: Session, samples: seq<Sample>)
    requires Accounted(t) && Playing(t.chain, samples) && t.log == []
    requires |t.chars| >= if View(t.chain).present then 2 else 1
    ensures t.lost > 0
  {
  }

  // ---------------------------------------------------------------- the exact window

  /** The bytes that try the patience: two if the next one comes before the drop, one otherwise. */
  function Trying(f: Format, trail: nat): (text: seq<byte>)
    requires ValidFormat(f)
  {
    if 10 * f.divisor <= Linger(f, trail) then [0, 0] else [0]
  }

  /** The clock of the first character of a trial tape, from the motor's start. */
  function FirstFromStart(f: Format, p: Player): int
    requires ValidFormat(f)
  {
    BeforeFirst(f, p) + FirstAt(f)
  }

  /** From the boundary before the first bit to the motor's start. */
  lemma TriesFromStart(f: Format, tape: seq<Chunk>, p: Player, at: nat, clocks: nat)
    requires AllFramed(tape) && Loading.Is8N1(f) && Loading.AtStart(f, p) && at >= 1
    requires Loading.AllLed(tape) && |Flat(TapeSegments(tape))| <= 0xffff_ffff
    requires Tries(f, Flat(TapeSegments(tape)), p.(tapeCounter := f.divisor - 1), at, clocks)
    ensures Tries(f, Flat(TapeSegments(tape)), p, BeforeFirst(f, p) + at, clocks)
  {
    hide Flat, Play, Loads, Loading.AtStart, Loading.AllLed;
    StartsAtBoundary(f, tape, p, 0);
    StartsAtBoundary(f, tape, p, BeforeFirst(f, p) + at - 1);
    StartsAtBoundary(f, tape, p, BeforeFirst(f, p) + at + clocks);
  }

  lemma TrialTapeTries(f: Format, p: Player, trail: nat)
    requires ValidFormat(f) && AllFramed(TrialTape(Trying(f, trail), trail))
    requires Loads(f, TrialTape(Trying(f, trail), trail), p)
    ensures Tries(f, Flat(TapeSegments(TrialTape(Trying(f, trail), trail))), p, FirstAt(f), Patience(f, trail))
  {
    hide Flat, Play, Loads, Linger, TrialTape, Confirm;
    var text := Trying(f, trail);
    LoadsIs8N1(f, TrialTape(text, trail), p);
    ConfirmWithin(f);
    FirstNoSooner(f, p, text, trail);
    hide FirstAt;
    if text == [0, 0] {
      SecondInTenBits(f, p, trail);
    } else {
      DropsAfterTrail(f, p, trail);
      CharBeforeDrop(f, p, trail);
    }
  }

  lemma TrialTapeLoads(f: Format, trail: nat)
    requires ValidFormat(f) && trail + 119 <= 0xffff_ffff
    ensures var tape := TrialTape(Trying(f, trail), trail);
            && AllFramed(tape) && Loading.AllLed(tape) && Trailed(tape, trail)
            && |Flat(TapeSegments(tape))| <= 0xffff_ffff
  {
    hide Flat, Linger, TrialTape, Led, Trailed;
    var text := Trying(f, trail);
    TrialTapeIs(text, trail);
    TrialTapeSize(text, trail);
    TrialTapeTrails(text, trail);
  }

  lemma TrialTapeTriesFromStart(f: Format, tape: seq<Chunk>, p: Player, trail: nat)
    requires Loading.Is8N1(f) && Loading.AtStart(f, p) && trail + 119 <= 0xffff_ffff
    requires AllFramed(tape) && tape == TrialTape(Trying(f, trail), trail)
    ensures Tries(f, Flat(TapeSegments(tape)), p, FirstFromStart(f, p), Patience(f, trail))
  {
    hide Flat, Play, Loads, FirstAt, Linger, TrialTape, Trying, Tries, Patience, Confirm;
    TrialTapeLoads(f, trail);
    StartsAtBoundary(f, tape, p, 0);
    TrialTapeTries(f, p.(tapeCounter := f.divisor - 1), trail);
    FirstIsLater(f);
    TriesFromStart(f, tape, p, FirstAt(f), Patience(f, trail));
  }

  lemma FirstIsLater(f: Format)
    requires Loading.Is8N1(f)
    ensures FirstAt(f) >= 1
  {
    ConfirmWithin(f);
  }

  /** In a window any wider the trial tape loses a byte. */
  lemma LateReadsLose(s: Session, tape: seq<Chunk>, trail: nat, window: nat) returns (run: seq<Event>)
    requires Loading.Is8N1(Form(s)) && trail + 119 <= 0xffff_ffff && window > CLOCK * Patience(Form(s), trail)
    requires AllFramed(tape) && Loadable(s, tape) && tape == TrialTape(Trying(Form(s), trail), trail)
    ensures ReadsWithin(run, window) && ActAll(s, run).lost > 0
  {
    var samples := Flat(TapeSegments(tape));
    LoadableStarts(s, tape);
    StartCounts(s, samples);
    PlayingHasTape(s.chain, samples);
    hide Flat, Play, TrialTape, Trying, Loading.AtStart, Loadable, FirstFromStart, ReadsWithin, ActAll, Started, Linger;
    var p, x := View(s.chain), Patience(Form(s), trail);
    hide Patience;
    TrialTapeTriesFromStart(Form(s), tape, p, trail);
    run := LateRun(s, FirstFromStart(Form(s), p), x);
    LateRunReads(s, FirstFromStart(Form(s), p), x, window);
    LateRunLoses(s, samples, FirstFromStart(Form(s), p), x);
  }

  /** Whatever the tape, as long as it leaves so many carrier bits, no schedule within the window loses a byte. */
  ghost predicate WindowIsSafe(f: Format, trail: nat, window: nat) {
    forall s: Session, chunks: seq<Chunk>, events: seq<Event> |
      AllFramed(chunks) && Loadable(s, chunks) && Form(s) == f && Trailed(chunks, trail) &&
      ReadsWithin(events, window) ::
      ActAll(s, events).lost == 0
  }

  /** The control byte for 8N1 in the given division. */
  function ControlFor(divisor: nat): (control: byte)
    requires divisor in {1, 16, 64}
    ensures control / 4 % 8 == 5 && control % 4 != 3 && Chip.ClockDivisor(control) == divisor
  {
    if divisor == 1 then 20 else if divisor == 16 then 21 else 22
  }

  /** The session that the usual start leaves with the given tape, for 8N1 in the given division. */
  lemma SomeSession(f: Format, chunks: seq<Chunk>) returns (s: Session)
    requires Loading.Is8N1(f) && AllFramed(chunks) && Loading.AllLed(chunks)
    requires |Flat(TapeSegments(chunks))| <= 0xffff_ffff
    ensures Loadable(s, chunks) && Form(s) == f
  {
    hide Flat, ReadyToLoad, Loading.AllLed, WriteScr, AciaRuns.After, Paced, ControlFor, Chip.ClockDivisor;
    var control := ControlFor(f.divisor);
    var sula := Sula(0, 0, 1, 1, 1, 0, true, 0);
    StartingTheMotorIsReady(chunks, sula, control, 0x80, false);
    var a := AciaRuns.After(Chip.POWER_ON, [AciaRuns.Control(3), AciaRuns.Control(control)]);
    var deck := UefDeck(Flat(TapeSegments(chunks)), 0, false);
    s := Session(WriteScr(Chain(sula, a, Some(Port(false, deck))), 0x80), [], [], 0);
  }

  /**
   * The exact bound: for tapes that leave so many carrier bits behind their data, reading within a window is safe if
   * and only if the window is at most the receiver's patience. With none left that is half a bit and one clock.
   */
  lemma WindowIsExact(f: Format, trail: nat, window: nat)
    requires Loading.Is8N1(f) && trail + 119 <= 0xffff_ffff
    ensures WindowIsSafe(f, trail, window) <==> window <= CLOCK * Patience(f, trail)
  {
    hide Flat, ActAll, Loadable, Patience, ReadsWithin, Trailed, Loading.AllLed, LateRun;
    if window <= CLOCK * Patience(f, trail) {
      forall s: Session, chunks: seq<Chunk>, events: seq<Event> |
        AllFramed(chunks) && Loadable(s, chunks) && Form(s) == f && Trailed(chunks, trail) &&
        ReadsWithin(events, window)
        ensures ActAll(s, events).lost == 0
      {
        TimelyReadsLoadTheTape(s, chunks, events, trail, window);
      }
    } else {
      var tape := TrialTape(Trying(f, trail), trail);
      TrialTapeLoads(f, trail);
      var s := SomeSession(f, tape);
      var run := LateReadsLose(s, tape, trail, window);
    }
  }

  /** In bit times: one half and a clock with no trail, nine and a half with nine bits, ten from ten bits on. */
  lemma PatienceIs(f: Format, trail: nat)
    requires Loading.Is8N1(f) && f.divisor > 1
    ensures Patience(f, trail)
         == if trail < 10 then trail * f.divisor + f.divisor / 2 + 1 else 10 * f.divisor
  {
    var d := f.divisor;
    assert (trail + 1) * d == trail * d + d;
    if trail >= 10 {
      assert trail * d >= 10 * d;
    } else {
      assert trail * d <= 9 * d;
    }
  }
}
