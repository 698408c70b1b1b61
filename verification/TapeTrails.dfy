// When the receiver delivers the characters of a tape: at one clock of a bit period, no two within ten bits, and
// none for as long before a drop of the carrier as the tape leaves behind its data.

module TapeTrails {
  import opened Bits
  import opened Receiver
  import opened TapeStreams
  import opened TapeText
  import opened TapePlayer
  import opened TapeLoading
  import opened SerialUlaSpec

  // ---------------------------------------------------------------- one bit period

  /** Between two bit periods, with the samples of a character's first bits taken. */
  function Midway(f: Format, taken: seq<bool>): Rx {
    Holding(f, taken, f.divisor - Confirm(f))
  }

  ghost predicate Takes(f: Format, rx: Rx, taken: seq<bool>) {
    |taken| < 9 && rx == Midway(f, taken)
  }

  /** Idle, or in the middle of a character whose start edge came with a bit. */
  ghost predicate InStep(f: Format, rx: Rx) {
    rx.phase == RxIdle || exists taken :: Takes(f, rx, taken)
  }

  /** The bits of the character being received, its start bit included. */
  function BitsIn(rx: Rx): nat {
    match rx.phase
    case RxIdle => 0
    case RxData => rx.shiftCount + 1
    case _ => 9
  }

  lemma MidwayCounts(f: Format, taken: seq<bool>)
    requires Is8N1(f) && |taken| < 9
    ensures BitsIn(Midway(f, taken)) == |taken| + 1 && Midway(f, taken).phase != RxIdle
  {
  }

  lemma NothingRun(f: Format, rx: Rx, line: seq<bool>)
    requires line == []
    ensures Run(f, rx, line) == Outcome(rx, [])
  {
  }

  /** Clocks between two samples, from any of them on. */
  lemma {:induction false} WaitsFrom(f: Format, taken: seq<bool>, m: nat, bit: bool, n: nat)
    requires ValidFormat(f) && |taken| < StopIndex(f) && m + n < f.divisor
    ensures Run(f, Holding(f, taken, m), Hold(bit, n)) == Outcome(Holding(f, taken, m + n), [])
  {
    hide Holding, Run, RxStep;
    if n == 0 {
      NothingRun(f, Holding(f, taken, m), Hold(bit, n));
    } else {
      WaitsFrom(f, taken, m, bit, n - 1);
      Wait(f, taken, m + n - 1, bit);
      RunOne(f, Holding(f, taken, m), Hold(bit, n - 1), bit);
      assert Hold(bit, n - 1) + [bit] == Hold(bit, n);
    }
  }

  /** Part of a bit period: the characters delivered, and the receiver at the end of a whole one. */
  ghost predicate Part(f: Format, rx: Rx, bit: bool, j: nat, o: Outcome) {
    && |o.chars| == (if Confirm(f) <= j && BitsIn(rx) == 9 then 1 else 0)
    && (j == f.divisor ==> InStep(f, o.rx) && BitsIn(o.rx) == BitsNext(BitsIn(rx), bit))
  }

  function BitsNext(n: nat, bit: bool): nat {
    if n == 9 || (n == 0 && bit) then 0 else n + 1
  }

  lemma HoldSplits(bit: bool, j: nat, n: nat)
    requires j <= n
    ensures Hold(bit, n) == Hold(bit, j) + Hold(bit, n - j)
  {
  }

  /** From a start edge that comes with a bit. */
  lemma IdleLow(f: Format, rx: Rx, j: nat)
    requires Is8N1(f) && rx.phase == RxIdle && j <= f.divisor
    ensures Run(f, rx, Hold(false, j)).chars == []
    ensures j == f.divisor ==> Run(f, rx, Hold(false, j)).rx == Midway(f, [])
  {
    hide Run, Holding;
    var c := Confirm(f);
    if j == 0 {
      NothingRun(f, rx, Hold(false, j));
    } else if j < c {
      StartConfirmed(f, rx, Hold(false, j));
    } else {
      StartConfirmed(f, rx, Hold(false, c));
      WaitsFrom(f, [], 0, false, j - c);
      HoldSplits(false, c, j);
      RunAfter(f, rx, Hold(false, c), Hold(false, j - c), Holding(f, [], 0));
    }
  }

  lemma MidwayInStep(f: Format, taken: seq<bool>)
    requires Is8N1(f) && |taken| < 9
    ensures InStep(f, Midway(f, taken)) && BitsIn(Midway(f, taken)) == |taken| + 1
  {
    hide Midway;
    MidwayCounts(f, taken);
    assert Takes(f, Midway(f, taken), taken);
  }

  lemma IdlePart(f: Format, rx: Rx, bit: bool, j: nat)
    requires Is8N1(f) && rx.phase == RxIdle && j <= f.divisor
    ensures Part(f, rx, bit, j, Run(f, rx, Hold(bit, j)))
  {
    hide Run, Midway, Confirm;
    if bit {
      MarkIsIgnored(f, rx, Hold(true, j));
    } else {
      IdleLow(f, rx, j);
      MidwayInStep(f, []);
    }
  }

  lemma StopOf(f: Format, samples: seq<bool>)
    requires Is8N1(f) && |samples| == 9
    ensures StopIndex(f) == 9 && Decoded(f, samples) == Char(Gather(samples[..8]), !samples[8], false)
  {
  }

  /** Up to the sample and with it. */
  lemma ToSample(f: Format, taken: seq<bool>, bit: bool)
    requires Is8N1(f) && |taken| < 9
    ensures var o := Run(f, Midway(f, taken), Hold(bit, Confirm(f)));
            if |taken| < 8 then o == Outcome(Holding(f, taken + [bit], 0), [])
            else o.chars == [Char(Gather(taken), !bit, false)] && o.rx.phase == RxIdle
  {
    var c, d := Confirm(f), f.divisor;
    hide Run, Holding, RxStep, Decoded, Confirm;
    ConfirmWithin(f);
    WaitsFrom(f, taken, d - c, bit, c - 1);
    RunOne(f, Midway(f, taken), Hold(bit, c - 1), bit);
    assert Hold(bit, c - 1) + [bit] == Hold(bit, c);
    if |taken| < 8 {
      TakesSample(f, taken, d - 1, bit);
    } else {
      SampleStop(f, taken, d - 1, bit);
      StopOf(f, taken + [bit]);
      assert (taken + [bit])[..8] == taken;
    }
  }

  lemma ConfirmWithin(f: Format)
    requires Is8N1(f)
    ensures 1 <= Confirm(f) <= f.divisor && StopIndex(f) == 9 && ValidFormat(f)
  {
  }

  lemma BusyPart(f: Format, taken: seq<bool>, bit: bool, j: nat)
    requires Is8N1(f) && |taken| < 9 && j <= f.divisor && (|taken| == 8 ==> bit)
    ensures Part(f, Midway(f, taken), bit, j, Run(f, Midway(f, taken), Hold(bit, j)))
  {
    hide Run, Holding, Confirm, BitsIn, Is8N1, InStep;
    ConfirmWithin(f);
    MidwayInStep(f, taken);
    if j < Confirm(f) {
      WaitsFrom(f, taken, f.divisor - Confirm(f), bit, j);
    } else {
      SampledPart(f, taken, bit, j - Confirm(f));
    }
  }

  /** From the sample on. */
  lemma SampledPart(f: Format, taken: seq<bool>, bit: bool, more: nat)
    requires Is8N1(f) && |taken| < 9 && Confirm(f) + more <= f.divisor && (|taken| == 8 ==> bit)
    ensures Part(f, Midway(f, taken), bit, Confirm(f) + more,
                 Run(f, Midway(f, taken), Hold(bit, Confirm(f) + more)))
  {
    hide Run, Holding, Confirm, BitsIn, Is8N1, InStep;
    var c, rx := Confirm(f), Midway(f, taken);
    ConfirmWithin(f);
    MidwayInStep(f, taken);
    ToSample(f, taken, bit);
    HoldSplits(bit, c, c + more);
    RunConcat(f, rx, Hold(bit, c), Hold(bit, more));
    if |taken| < 8 {
      WaitsFrom(f, taken + [bit], 0, bit, more);
      MidwayInStep(f, taken + [bit]);
    } else {
      var idle := Run(f, rx, Hold(bit, c)).rx;
      MarkIsIgnored(f, idle, Hold(bit, more));
      IdleInStep(f, idle);
    }
  }

  lemma IdleInStep(f: Format, rx: Rx)
    requires rx.phase == RxIdle
    ensures InStep(f, rx) && BitsIn(rx) == 0
  {
  }

  /** A low stop bit shows as a framing error. */
  lemma LowStopShows(f: Format, rx: Rx)
    requires Is8N1(f) && InStep(f, rx) && BitsIn(rx) == 9
    ensures exists c :: c in Run(f, rx, Hold(false, f.divisor)).chars && c.framingError
  {
    var taken :| Takes(f, rx, taken);
    MidwayCounts(f, taken);
    ToSample(f, taken, false);
    var c, d := Confirm(f), f.divisor;
    HoldSplits(false, c, d);
    RunConcat(f, rx, Hold(false, c), Hold(false, d - c));
    assert Run(f, rx, Hold(false, d)).chars[0].framingError;
  }

  lemma AnyPart(f: Format, rx: Rx, bit: bool, j: nat)
    requires Is8N1(f) && InStep(f, rx) && j <= f.divisor && (BitsIn(rx) == 9 ==> bit)
    ensures Part(f, rx, bit, j, Run(f, rx, Hold(bit, j)))
  {
    if rx.phase == RxIdle {
      IdlePart(f, rx, bit, j);
    } else {
      var taken :| Takes(f, rx, taken);
      MidwayCounts(f, taken);
      BusyPart(f, taken, bit, j);
    }
  }

  // ---------------------------------------------------------------- the bits of a tape

  /** Between two bits: the lock as its count says, the receiver in step, the head where the bits end. */
  ghost predicate Steady(f: Format, samples: seq<Sample>, p: Player) {
    && AtBoundary(f, p) && InStep(f, p.rx) && (!p.present ==> p.rx.phase == RxIdle)
    && p.count <= p.at <= |samples| <= 0xffff_ffff
  }

  ghost predicate Unbroken(chars: seq<Char>) {
    forall c | c in chars :: !c.framingError
  }

  /** One bit period of a steady player: a character if its ninth bit after the start bit ends here, or none. */
  lemma SteadyBit(f: Format, samples: seq<Sample>, p: Player)
    requires Is8N1(f) && Steady(f, samples, p) && Unbroken(Play(f, samples, p, f.divisor).chars)
    ensures var r := Play(f, samples, p, f.divisor);
            && Steady(f, samples, r.player) && 10 * |r.chars| + BitsIn(r.player.rx) <= BitsIn(p.rx) + 1
            && r.player.at == (if p.at < |samples| then p.at + 1 else p.at)
            && (r.player.present ==> p.at < |samples| && samples[p.at].carrier)
  {
    hide Play, Run, InStep, Confirm;
    var q := Fetch(samples, p);
    PlaysBitPeriod(f, samples, p);
    if q.present {
      StopIsHigh(f, q.rx, q.bit);
      AnyPart(f, q.rx, q.bit, f.divisor);
    } else {
      IdleInStep(f, q.rx);
    }
  }

  lemma StopIsHigh(f: Format, rx: Rx, bit: bool)
    requires Is8N1(f) && InStep(f, rx) && Unbroken(Run(f, rx, Hold(bit, f.divisor)).chars)
    ensures BitsIn(rx) == 9 ==> bit
  {
    if BitsIn(rx) == 9 && !bit {
      LowStopShows(f, rx);
    }
  }

  /** The character, if any, comes at the clock of the sample. */
  lemma CharsWithinBit(f: Format, samples: seq<Sample>, p: Player, j: nat)
    requires Is8N1(f) && Steady(f, samples, p) && Unbroken(Play(f, samples, p, f.divisor).chars) && j <= f.divisor
    ensures Play(f, samples, p, j).chars
         == if j < Confirm(f) then [] else Play(f, samples, p, f.divisor).chars
    ensures j > 0 ==> Play(f, samples, p, j).player.present == Fetch(samples, p).present
  {
    hide Run, InStep, Confirm, AtBoundary;
    ConfirmWithin(f);
    if j == 0 {
      assert Play(f, samples, p, 0) == Played(p, []);
    } else {
      hide Play;
      assert AtBoundary(f, p);
      BoundaryIsFetch(f, p);
      var q := Fetch(samples, p);
      PlaysPart(f, samples, p, j);
      PlaysPart(f, samples, p, f.divisor);
      if q.present {
        SteadyFetch(f, samples, p);
        StopIsHigh(f, q.rx, q.bit);
        PartsAgree(f, q.rx, q.bit, j);
      }
    }
  }

  lemma BoundaryIsFetch(f: Format, p: Player)
    requires AtBoundary(f, p)
    ensures p.tapeCounter == f.divisor - 1
  {
  }

  lemma SteadyFetch(f: Format, samples: seq<Sample>, p: Player)
    requires Steady(f, samples, p)
    ensures InStep(f, Fetch(samples, p).rx)
  {
  }

  lemma PartsAgree(f: Format, rx: Rx, bit: bool, j: nat)
    requires Is8N1(f) && InStep(f, rx) && j <= f.divisor && (BitsIn(rx) == 9 ==> bit)
    ensures var o := Run(f, rx, Hold(bit, f.divisor));
            Run(f, rx, Hold(bit, j)).chars == if j < Confirm(f) then [] else o.chars
  {
    hide Run, InStep, Confirm, Hold;
    ConfirmWithin(f);
    AnyPart(f, rx, bit, j);
    AnyPart(f, rx, bit, f.divisor);
    HoldSplits(bit, j, f.divisor);
    RunConcat(f, rx, Hold(bit, j), Hold(bit, f.divisor - j));
  }

  // ---------------------------------------------------------------- whole tapes

  /** Between two bits at the start of a tape that can be loaded. */
  ghost predicate Loads(f: Format, chunks: seq<Chunk>, p: Player)
    requires AllFramed(chunks)
  {
    && Is8N1(f) && AllLed(chunks) && |Flat(TapeSegments(chunks))| <= 0xffff_ffff
    && AtBoundary(f, p) && p.rx.phase == RxIdle && p.at == 0 && p.count == 0
  }

  lemma ReceivedUnbroken(chars: seq<Char>, text: seq<byte>)
    requires chars <= Received(text)
    ensures Unbroken(chars)
  {
  }

  lemma LoadsUnbroken(f: Format, chunks: seq<Chunk>, p: Player, n: nat)
    requires AllFramed(chunks) && Loads(f, chunks, p)
    ensures Unbroken(PlayBits(f, Flat(TapeSegments(chunks)), p, n).chars)
    ensures Unbroken(Play(f, Flat(TapeSegments(chunks)), PlayBits(f, Flat(TapeSegments(chunks)), p, n).player,
                          f.divisor).chars)
  {
    hide Play, PlayBits, Flat, Unbroken, Received, Text, AtBoundary;
    var samples := Flat(TapeSegments(chunks));
    BitsDeliver(f, chunks, p, n);
    BitsDeliver(f, chunks, p, n + 1);
    ReceivedUnbroken(PlayBits(f, samples, p, n).chars, Text(chunks));
    ReceivedUnbroken(PlayBits(f, samples, p, n + 1).chars, Text(chunks));
    OneBitMore(f, samples, p, n);
    LaterUnbroken(PlayBits(f, samples, p, n).chars,
                  Play(f, samples, PlayBits(f, samples, p, n).player, f.divisor).chars);
  }

  lemma OneBitMore(f: Format, samples: seq<Sample>, p: Player, n: nat)
    ensures PlayBits(f, samples, p, n + 1).chars
         == PlayBits(f, samples, p, n).chars + Play(f, samples, PlayBits(f, samples, p, n).player, f.divisor).chars
  {
    hide Play;
  }

  lemma LaterUnbroken(a: seq<Char>, b: seq<Char>)
    requires Unbroken(a + b)
    ensures Unbroken(b)
  {
    forall c | c in b ensures !c.framingError {
      assert c in a + b;
    }
  }

  /** The player is steady at every bit, present only where it has just fetched a carrier. */
  lemma {:induction false} StaysSteady(f: Format, chunks: seq<Chunk>, p: Player, n: nat)
    requires AllFramed(chunks) && Loads(f, chunks, p)
    ensures var samples := Flat(TapeSegments(chunks));
            var q := PlayBits(f, samples, p, n).player;
            && Steady(f, samples, q) && q.at == (if n <= |samples| then n else |samples|)
            && (n > 0 && q.present ==> n <= |samples| && samples[n - 1].carrier)
  {
    hide Play, Flat, Loads;
    var samples := Flat(TapeSegments(chunks));
    if n == 0 {
      StartsSteady(f, chunks, p);
    } else {
      hide Steady;
      StaysSteady(f, chunks, p, n - 1);
      LoadsUnbroken(f, chunks, p, n - 1);
      LoadsIs8N1(f, chunks, p);
      SteadyBit(f, samples, PlayBits(f, samples, p, n - 1).player);
    }
  }

  lemma LoadsIs8N1(f: Format, chunks: seq<Chunk>, p: Player)
    requires AllFramed(chunks) && Loads(f, chunks, p)
    ensures Is8N1(f)
  {
  }

  lemma StartsSteady(f: Format, chunks: seq<Chunk>, p: Player)
    requires AllFramed(chunks) && Loads(f, chunks, p)
    ensures var samples := Flat(TapeSegments(chunks));
            PlayBits(f, samples, p, 0) == Played(p, []) && Steady(f, samples, p) && p.at == 0
  {
    hide Flat;
    IdleInStep(f, p.rx);
  }

  /** A character takes ten bits. */
  lemma {:induction false} TenBitsEach(f: Format, chunks: seq<Chunk>, p: Player, m: nat, n: nat)
    requires AllFramed(chunks) && Loads(f, chunks, p)
    ensures var samples := Flat(TapeSegments(chunks));
            var r, t := PlayBits(f, samples, p, m), PlayBits(f, samples, p, m + n);
            10 * |t.chars| + BitsIn(t.player.rx) <= 10 * |r.chars| + BitsIn(r.player.rx) + n
  {
    hide Play, Flat, Loads, Steady, BitsIn;
    if n > 0 {
      var samples := Flat(TapeSegments(chunks));
      TenBitsEach(f, chunks, p, m, n - 1);
      StaysSteady(f, chunks, p, m + n - 1);
      LoadsUnbroken(f, chunks, p, m + n - 1);
      LoadsIs8N1(f, chunks, p);
      SteadyBit(f, samples, PlayBits(f, samples, p, m + n - 1).player);
    }
  }

  lemma {:induction false} CharsGrow(f: Format, samples: seq<Sample>, p: Player, a: nat, b: nat)
    requires a <= b
    ensures Play(f, samples, p, a).chars <= Play(f, samples, p, b).chars
  {
    hide Play;
    PlayOn(f, samples, p, a, b - a);
  }

  lemma BitsGrow(f: Format, samples: seq<Sample>, p: Player, a: nat, b: nat)
    requires a <= b
    ensures PlayBits(f, samples, p, a).chars <= PlayBits(f, samples, p, b).chars
  {
    hide PlayBits;
    BitsGoOn(f, samples, p, a, b - a);
  }

  /** The characters at any clock, by the bit and the clock within it. */
  lemma CharsAtClock(f: Format, chunks: seq<Chunk>, p: Player, n: nat, j: nat, k: nat)
    requires AllFramed(chunks) && Loads(f, chunks, p) && j <= f.divisor && k == n * f.divisor + j
    ensures var samples := Flat(TapeSegments(chunks));
            Play(f, samples, p, k).chars == PlayBits(f, samples, p, if j < Confirm(f) then n else n + 1).chars
    ensures var samples := Flat(TapeSegments(chunks));
            var q := PlayBits(f, samples, p, n).player;
            Play(f, samples, p, k).player.present == if j == 0 then q.present else Fetch(samples, q).present
  {
    hide Play, Flat, Loads, Steady, Fetch;
    var samples := Flat(TapeSegments(chunks));
    var q := PlayBits(f, samples, p, n).player;
    StaysSteady(f, chunks, p, n);
    LoadsUnbroken(f, chunks, p, n);
    LoadsIs8N1(f, chunks, p);
    CharsWithinBit(f, samples, q, j);
    BitsAreClocks(f, samples, p, n, n * f.divisor);
    PlayOn(f, samples, p, n * f.divisor, j);
    if j == 0 {
      NothingInNone(f, samples, q);
    }
  }

  lemma NothingInNone(f: Format, samples: seq<Sample>, p: Player)
    ensures Play(f, samples, p, 0) == Played(p, [])
  {
  }

  // ---------------------------------------------------------------- what a tape leaves behind its data

  /** Bits since the last framed byte. */
  function TrailAfter(trail: nat, c: Chunk): nat {
    match c
    case CarrierTone(n) => trail + n
    case CarrierToneWithDummyByte(_, after) => after
    case TapeDataBlock(data) => if data == [] then trail else 0
    case ExplicitTapeDataBlock(_, _) => 0
    case IntegerGap(n) => trail + n
    case FloatingPointGap(n) => trail + n
    case OtherChunk => trail
  }

  function Trail(chunks: seq<Chunk>): nat {
    if chunks == [] then 0 else TrailAfter(Trail(chunks[..|chunks| - 1]), chunks[|chunks| - 1])
  }

  /** No byte yet, or enough bits since the last. */
  predicate Rested(chunks: seq<Chunk>, trail: nat) {
    Text(chunks) == [] || trail <= Trail(chunks)
  }

  /** Every gap follows the last byte before it by at least so many bits with a carrier. */
  predicate GapsTrail(chunks: seq<Chunk>, trail: nat) {
    chunks == [] ||
    var init := chunks[..|chunks| - 1];
    GapsTrail(init, trail) && (Quiet(chunks[|chunks| - 1]) > 0 ==> Rested(init, trail))
  }

  /** So does every gap, and the end of the tape. Every tape leaves at least none. */
  predicate Trailed(chunks: seq<Chunk>, trail: nat) {
    GapsTrail(chunks, trail) && Rested(chunks, trail)
  }

  lemma {:induction false} EveryTapeTrailsNone(chunks: seq<Chunk>)
    ensures Trailed(chunks, 0)
  {
    if chunks != [] {
      EveryTapeTrailsNone(chunks[..|chunks| - 1]);
    }
  }

  /** A tape that begins with the given chunks, from its start. */
  ghost predicate BeginsWith(f: Format, samples: seq<Sample>, p: Player, chunks: seq<Chunk>)
    requires AllFramed(chunks)
  {
    && Is8N1(f) && AllLed(chunks) && |samples| <= 0xffff_ffff && Ahead(samples, 0, Flat(TapeSegments(chunks)))
    && AtBoundary(f, p) && p.rx.phase == RxIdle && p.at == 0 && p.count == 0
  }

  /** At the end of the chunks that a tape begins with, their text has been delivered. */
  lemma ChunksDelivered(f: Format, samples: seq<Sample>, p: Player, chunks: seq<Chunk>)
    requires AllFramed(chunks) && BeginsWith(f, samples, p, chunks)
    ensures PlayBits(f, samples, p, |Flat(TapeSegments(chunks))|).chars == Received(Text(chunks))
  {
    PlaysChunks(f, samples, p, chunks);
  }

  lemma BeginsWithLess(f: Format, samples: seq<Sample>, p: Player, chunks: seq<Chunk>)
    requires AllFramed(chunks) && chunks != [] && BeginsWith(f, samples, p, chunks)
    ensures var init, c := chunks[..|chunks| - 1], chunks[|chunks| - 1];
            && BeginsWith(f, samples, p, init)
            && |Flat(TapeSegments(chunks))| == |Flat(TapeSegments(init))| + |Layout(c)| <= |samples|
            && Ahead(samples, |Flat(TapeSegments(init))|, Layout(c))
  {
    hide Flat, Layout, ChunkSegments, Ahead, AtBoundary;
    var init, c := chunks[..|chunks| - 1], chunks[|chunks| - 1];
    FlatConcat(TapeSegments(init), ChunkSegments(c));
    ChunkLayout(c);
    AheadParts(samples, 0, Flat(TapeSegments(init)), Layout(c));
  }

  lemma LayoutLength(c: Chunk)
    requires Framed(c)
    ensures |Layout(c)| == Before(c) + 10 * |ChunkText(c)| + Behind(c) + Quiet(c)
    ensures forall i | 0 <= i < |Layout(c)| :: Layout(c)[i].carrier == (Quiet(c) == 0)
  {
    FramesLength(ChunkText(c));
  }

  /** What one more chunk adds. */
  lemma OneChunkMore(init: seq<Chunk>, c: Chunk)
    requires AllFramed(init) && Framed(c)
    ensures var more := init + [c];
            && AllFramed(more) && Flat(TapeSegments(more)) == Flat(TapeSegments(init)) + Layout(c)
            && Text(more) == Text(init) + ChunkText(c) && Trail(more) == TrailAfter(Trail(init), c)
            && (AllLed(more) <==> AllLed(init) && Led(Lead(init), c)) && Lead(more) == LeadAfter(Lead(init), c)
  {
    hide Flat, Layout, ChunkSegments;
    assert (init + [c])[..|init|] == init;
    FlatConcat(TapeSegments(init), ChunkSegments(c));
    ChunkLayout(c);
  }

  /** A tone with a byte in it begins as the tone, then the byte. */
  lemma DummyBegins(f: Format, samples: seq<Sample>, p: Player, init: seq<Chunk>, before: nat, after: nat)
    requires AllFramed(init) && AllFramed(init + [CarrierToneWithDummyByte(before, after)])
    requires BeginsWith(f, samples, p, init + [CarrierToneWithDummyByte(before, after)])
    ensures var lead := init + [CarrierTone(before)] + [TapeDataBlock([0xaa])];
            && AllFramed(lead) && BeginsWith(f, samples, p, lead) && Text(lead) == Text(init) + [0xaa]
            && |Flat(TapeSegments(lead))| == |Flat(TapeSegments(init))| + before + 10
  {
    hide Flat, Ahead, AtBoundary, TapeSegments, Text, Trail, Layout, Lead, AllLed, Carried;
    var tone, byte := CarrierTone(before), TapeDataBlock([0xaa]);
    var head, behind := Flat(TapeSegments(init)), Carried(Mark(after));
    OneChunkMore(init, tone);
    OneChunkMore(init + [tone], byte);
    OneChunkMore(init, CarrierToneWithDummyByte(before, after));
    LayoutLength(tone);
    LayoutLength(byte);
    DummyLayouts(before, after);
    var front := head + Layout(tone) + Layout(byte);
    assert head + (Layout(tone) + Layout(byte) + behind) == front + behind;
    AheadParts(samples, 0, front, behind);
  }

  lemma DummyLayouts(before: nat, after: nat)
    ensures Layout(CarrierToneWithDummyByte(before, after))
         == Layout(CarrierTone(before)) + Layout(TapeDataBlock([0xaa])) + Carried(Mark(after))
  {
    hide Frames8N1;
    assert Carried(Mark(0)) == [] && Silent(0) == [] && Carried(Frames8N1([])) == [] by {
      assert Frames8N1([]) == [] by { NoFrames(); }
    }
  }

  /** The bits of the trail deliver nothing. */
  lemma {:induction false} TrailIsQuiet(f: Format, samples: seq<Sample>, p: Player, chunks: seq<Chunk>)
    requires AllFramed(chunks) && BeginsWith(f, samples, p, chunks)
    ensures TrailQuiet(f, samples, p, chunks)
  {
    hide PlayBits, BeginsWith, TrailQuiet, Flat, TapeSegments, Layout, Text, Trail, ChunkText, ChunkSegments, Ahead;
    if chunks == [] {
      NoTrail(f, samples, p);
    } else {
      var init, c := chunks[..|chunks| - 1], chunks[|chunks| - 1];
      InitBegins(f, samples, p, chunks);
      TrailIsQuiet(f, samples, p, init);
      assert chunks == init + [c];
      if c.CarrierToneWithDummyByte? {
        DummyTrail(f, samples, p, init, c.before, c.after);
      } else if c.TapeDataBlock? && c.data != [] {
        BlockTrail(f, samples, p, chunks);
      } else {
        QuietTrail(f, samples, p, init, c);
      }
    }
  }

  lemma InitBegins(f: Format, samples: seq<Sample>, p: Player, chunks: seq<Chunk>)
    requires AllFramed(chunks) && chunks != [] && BeginsWith(f, samples, p, chunks)
    ensures AllFramed(chunks[..|chunks| - 1]) && BeginsWith(f, samples, p, chunks[..|chunks| - 1])
    ensures Framed(chunks[|chunks| - 1])
  {
    hide BeginsWith, Flat, TapeSegments, Layout, Ahead;
    BeginsWithLess(f, samples, p, chunks);
  }

  ghost predicate TrailQuiet(f: Format, samples: seq<Sample>, p: Player, chunks: seq<Chunk>)
    requires AllFramed(chunks)
  {
    var n := |Flat(TapeSegments(chunks))|;
    Trail(chunks) <= n && PlayBits(f, samples, p, n - Trail(chunks)).chars == Received(Text(chunks))
  }

  lemma NoTrail(f: Format, samples: seq<Sample>, p: Player)
    ensures TrailQuiet(f, samples, p, [])
  {
  }

  lemma BlockTrail(f: Format, samples: seq<Sample>, p: Player, chunks: seq<Chunk>)
    requires AllFramed(chunks) && chunks != [] && BeginsWith(f, samples, p, chunks)
    requires var c := chunks[|chunks| - 1]; c.TapeDataBlock? && c.data != []
    ensures TrailQuiet(f, samples, p, chunks)
  {
    hide Flat, PlayBits, BeginsWith, TapeSegments, Received;
    ChunksDelivered(f, samples, p, chunks);
  }

  lemma QuietTrail(f: Format, samples: seq<Sample>, p: Player, init: seq<Chunk>, c: Chunk)
    requires AllFramed(init) && Framed(c) && TrailQuiet(f, samples, p, init)
    requires !c.CarrierToneWithDummyByte? && (c.TapeDataBlock? ==> c.data == [])
    ensures AllFramed(init + [c]) && TrailQuiet(f, samples, p, init + [c])
  {
    hide Flat, PlayBits, TapeSegments, Layout, Received, Text, Trail;
    OneChunkMore(init, c);
    LayoutLength(c);
    assert Text(init) + [] == Text(init);
  }

  lemma DummyTrail(f: Format, samples: seq<Sample>, p: Player, init: seq<Chunk>, before: nat, after: nat)
    requires AllFramed(init) && AllFramed(init + [CarrierToneWithDummyByte(before, after)])
    requires BeginsWith(f, samples, p, init + [CarrierToneWithDummyByte(before, after)])
    ensures TrailQuiet(f, samples, p, init + [CarrierToneWithDummyByte(before, after)])
  {
    hide Flat, PlayBits, BeginsWith, TapeSegments, Layout, Received, Text, Trail;
    var c := CarrierToneWithDummyByte(before, after);
    OneChunkMore(init, c);
    LayoutLength(c);
    DummyBegins(f, samples, p, init, before, after);
    ChunksDelivered(f, samples, p, init + [CarrierTone(before)] + [TapeDataBlock([0xaa])]);
  }

  /** The bits before the one given, as many as asked for, have delivered nothing. */
  ghost predicate QuietUpTo(f: Format, samples: seq<Sample>, p: Player, trail: nat, n: nat) {
    PlayBits(f, samples, p, if n <= trail then 0 else n - trail).chars == PlayBits(f, samples, p, n).chars
  }

  lemma RestedIsQuiet(f: Format, samples: seq<Sample>, p: Player, chunks: seq<Chunk>, trail: nat)
    requires AllFramed(chunks) && BeginsWith(f, samples, p, chunks) && Rested(chunks, trail)
    ensures QuietUpTo(f, samples, p, trail, |Flat(TapeSegments(chunks))|)
  {
    hide Flat, PlayBits, BeginsWith, TapeSegments, Text, Trail;
    var n := |Flat(TapeSegments(chunks))|;
    var m := if n <= trail then 0 else n - trail;
    ChunksDelivered(f, samples, p, chunks);
    TrailIsQuiet(f, samples, p, chunks);
    BitsGrow(f, samples, p, m, n);
    if trail <= Trail(chunks) {
      BitsGrow(f, samples, p, n - Trail(chunks), m);
    }
  }

  /** Where a gap begins, the bits of its trail have delivered nothing. */
  lemma {:induction false} GapsAreQuiet(f: Format, tape: seq<Chunk>, p: Player, chunks: seq<Chunk>, trail: nat, n: nat)
    requires AllFramed(tape) && Loads(f, tape, p) && AllFramed(chunks) && GapsTrail(chunks, trail)
    requires BeginsWith(f, Flat(TapeSegments(tape)), p, chunks) && n < |Flat(TapeSegments(chunks))|
    requires PlayBits(f, Flat(TapeSegments(tape)), p, n).player.present
    requires n < |Flat(TapeSegments(tape))| && !Flat(TapeSegments(tape))[n].carrier
    ensures QuietUpTo(f, Flat(TapeSegments(tape)), p, trail, n)
  {
    hide Flat, PlayBits, BeginsWith, TapeSegments, Layout, QuietUpTo, Rested, Loads;
    var samples := Flat(TapeSegments(tape));
    if chunks != [] {
      var init, c := chunks[..|chunks| - 1], chunks[|chunks| - 1];
      BeginsWithLess(f, samples, p, chunks);
      var start := |Flat(TapeSegments(init))|;
      if n < start {
        GapsAreQuiet(f, tape, p, init, trail, n);
      } else {
        LayoutLength(c);
        SampleOf(samples, start, Layout(c), n - start);
        if n == start {
          RestedIsQuiet(f, samples, p, init, trail);
        } else {
          SampleOf(samples, start, Layout(c), n - 1 - start);
          StaysSteady(f, tape, p, n);
        }
      }
    } else {
      NoSamples();
    }
  }

  lemma NoSamples()
    ensures Flat(TapeSegments([])) == []
  {
  }

  lemma SampleOf(samples: seq<Sample>, at: nat, run: seq<Sample>, i: nat)
    requires Ahead(samples, at, run) && i < |run|
    ensures samples[at + i] == run[i]
  {
    assert samples[at..at + |run|][i] == run[i];
  }

  /** Where the carrier drops, the bits of the tape's trail have delivered nothing. */
  lemma DropsAreQuiet(f: Format, tape: seq<Chunk>, p: Player, trail: nat, n: nat)
    requires AllFramed(tape) && Loads(f, tape, p) && Trailed(tape, trail)
    requires PlayBits(f, Flat(TapeSegments(tape)), p, n).player.present
    requires !Under(Flat(TapeSegments(tape)), n).carrier
    ensures QuietUpTo(f, Flat(TapeSegments(tape)), p, trail, n)
  {
    hide Flat, PlayBits, QuietUpTo, GapsTrail, Rested;
    var samples := Flat(TapeSegments(tape));
    LoadsBegins(f, tape, p);
    StaysSteady(f, tape, p, n);
    if n < |samples| {
      GapsAreQuiet(f, tape, p, tape, trail, n);
    } else {
      StartsAbsent(f, samples, p);
      RestedIsQuiet(f, samples, p, tape, trail);
    }
  }

  lemma StartsAbsent(f: Format, samples: seq<Sample>, p: Player)
    requires AtBoundary(f, p) && p.count == 0
    ensures !PlayBits(f, samples, p, 0).player.present
  {
  }

  lemma LoadsBegins(f: Format, chunks: seq<Chunk>, p: Player)
    requires AllFramed(chunks) && Loads(f, chunks, p)
    ensures BeginsWith(f, Flat(TapeSegments(chunks)), p, chunks)
  {
    hide Flat;
    var samples := Flat(TapeSegments(chunks));
    assert samples[0..|samples|] == samples;
  }

  // ---------------------------------------------------------------- by the clock

  /** Receiver clocks from the character before a drop of the carrier to the drop, at the least. */
  function Linger(f: Format, trail: nat): nat
    requires ValidFormat(f)
  {
    (trail + 1) * f.divisor + 1 - Confirm(f)
  }

  /** Between the last character before a drop and the drop there are that many clocks. */
  lemma LingersBeforeDrop(f: Format, tape: seq<Chunk>, p: Player, trail: nat, h: nat, k: nat)
    requires AllFramed(tape) && Loads(f, tape, p) && Trailed(tape, trail)
    requires Play(f, Flat(TapeSegments(tape)), p, k).player.present
    requires !Play(f, Flat(TapeSegments(tape)), p, k + 1).player.present
    requires h <= k < h + Linger(f, trail)
    ensures Play(f, Flat(TapeSegments(tape)), p, h).chars == Play(f, Flat(TapeSegments(tape)), p, k).chars
  {
    hide Play, Flat, PlayBits, Loads, Trailed, QuietUpTo, Linger;
    LoadsIs8N1(f, tape, p);
    DropIsAtBit(f, tape, p, trail, k);
    QuietClocks(f, tape, p, trail, k / f.divisor, h, k);
  }

  /** A drop comes with the first clock of a bit, and the bits of the trail before it are quiet. */
  lemma DropIsAtBit(f: Format, tape: seq<Chunk>, p: Player, trail: nat, k: nat)
    requires AllFramed(tape) && Loads(f, tape, p) && Trailed(tape, trail)
    requires Play(f, Flat(TapeSegments(tape)), p, k).player.present
    requires !Play(f, Flat(TapeSegments(tape)), p, k + 1).player.present
    ensures k == k / f.divisor * f.divisor && QuietUpTo(f, Flat(TapeSegments(tape)), p, trail, k / f.divisor)
  {
    hide Play, Flat, PlayBits, Loads, Trailed, Confirm, Fetch, QuietUpTo;
    var samples, d := Flat(TapeSegments(tape)), f.divisor;
    LoadsIs8N1(f, tape, p);
    var n, j := k / d, k % d;
    Quotient(k, d);
    CharsAtClock(f, tape, p, n, j, k);
    CharsAtClock(f, tape, p, n, j + 1, k + 1);
    DropsAtFetch(f, samples, PlayBits(f, samples, p, n).player);
    StaysSteady(f, tape, p, n);
    DropsAreQuiet(f, tape, p, trail, n);
  }

  lemma QuietClocks(f: Format, tape: seq<Chunk>, p: Player, trail: nat, n: nat, h: nat, k: nat)
    requires AllFramed(tape) && Loads(f, tape, p) && QuietUpTo(f, Flat(TapeSegments(tape)), p, trail, n)
    requires k == n * f.divisor && h <= k < h + Linger(f, trail)
    ensures Play(f, Flat(TapeSegments(tape)), p, h).chars == Play(f, Flat(TapeSegments(tape)), p, k).chars
  {
    hide Play, Flat, PlayBits, Loads, Confirm, Fetch, Linger;
    var samples := Flat(TapeSegments(tape));
    LoadsIs8N1(f, tape, p);
    ConfirmWithin(f);
    CharsAtClock(f, tape, p, n, 0, k);
    CharsGrow(f, samples, p, h, k);
    if n <= trail {
      NoBitsPlayed(f, samples, p);
    } else {
      var m := n - trail - 1;
      TrailClocks(f, trail, m, h, k);
      CharsAtClock(f, tape, p, m, Confirm(f), m * f.divisor + Confirm(f));
      CharsGrow(f, samples, p, m * f.divisor + Confirm(f), h);
    }
  }

  lemma TrailClocks(f: Format, trail: nat, m: nat, h: nat, k: nat)
    requires Is8N1(f) && k == (m + 1 + trail) * f.divisor && k < h + Linger(f, trail)
    ensures 0 <= m * f.divisor && m * f.divisor + Confirm(f) <= h
  {
    hide Confirm;
    assert (m + 1 + trail) * f.divisor == m * f.divisor + (trail + 1) * f.divisor;
  }

  lemma NoBitsPlayed(f: Format, samples: seq<Sample>, p: Player)
    ensures PlayBits(f, samples, p, 0) == Played(p, [])
  {
  }

  lemma DropsAtFetch(f: Format, samples: seq<Sample>, p: Player)
    requires p.present && !Fetch(samples, p).present
    ensures !Under(samples, p.at).carrier
  {
  }

  lemma Quotient(k: nat, d: nat)
    requires d > 0
    ensures k == k / d * d + k % d && k % d < d && k / d >= 0
  {
  }

  /** Ten bits deliver at most one character. */
  lemma OneInTenBits(f: Format, tape: seq<Chunk>, p: Player, h: nat, k: nat)
    requires AllFramed(tape) && Loads(f, tape, p) && h <= k <= h + 10 * f.divisor
    ensures |Play(f, Flat(TapeSegments(tape)), p, k).chars| <= |Play(f, Flat(TapeSegments(tape)), p, h).chars| + 1
  {
    hide Play, Flat, PlayBits, Loads, Confirm, BitsIn;
    var samples, d := Flat(TapeSegments(tape)), f.divisor;
    LoadsIs8N1(f, tape, p);
    ConfirmWithin(f);
    var n, j := h / d, h % d;
    Quotient(h, d);
    assert (n + 10) * d + j == h + 10 * d;
    CharsAtClock(f, tape, p, n, j, h);
    CharsAtClock(f, tape, p, n + 10, j, h + 10 * d);
    CharsGrow(f, samples, p, k, h + 10 * d);
    var m := if j < Confirm(f) then n else n + 1;
    TenBitsEach(f, tape, p, m, 10);
    StaysSteady(f, tape, p, m);
    BitsAreFew(f, samples, PlayBits(f, samples, p, m).player);
  }

  lemma BitsAreFew(f: Format, samples: seq<Sample>, p: Player)
    requires Steady(f, samples, p) && Is8N1(f)
    ensures BitsIn(p.rx) <= 9
  {
    if p.rx.phase != RxIdle {
      var taken :| Takes(f, p.rx, taken);
      MidwayCounts(f, taken);
    }
  }
}
