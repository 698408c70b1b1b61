// Playing whole tapes: what the receiver delivers for every tape of tones, framed data and gaps in
// which each block of data follows enough leader for the carrier lock.

module TapeLoading {
  import opened Bits
  import opened Receiver
  import opened BitRate
  import opened TapeStreams
  import opened TapeText
  import opened TapePlayer
  import opened SerialUlaSpec

  ghost predicate Is8N1(f: Format) {
    f.divisor in {1, 16, 64} && f.wordLength == 8 && f.parity == NoParity
  }

  /** The characters of a text, received without an error. */
  function Received(text: seq<byte>): seq<Char> {
    seq(|text|, i requires 0 <= i < |text| => Char(text[i], false, false))
  }

  // ---------------------------------------------------------------- leaders

  /** Carrier bits in a row after a chunk, given those before it. */
  function LeadAfter(lead: nat, c: Chunk): nat {
    match c
    case CarrierTone(n) => lead + n
    case CarrierToneWithDummyByte(before, after) => lead + before + 10 + after
    case TapeDataBlock(data) => lead + 10 * |data|
    case ExplicitTapeDataBlock(_, n) => lead + n
    case IntegerGap(n) => if n > 0 then 0 else lead
    case FloatingPointGap(n) => if n > 0 then 0 else lead
    case OtherChunk => lead
  }

  /** The lock is on when the chunk's first data bit comes: 99 carrier bits before it are enough. */
  predicate Led(lead: nat, c: Chunk) {
    match c
    case TapeDataBlock(data) => data == [] || lead + 1 >= CARRIER_LOCK
    case CarrierToneWithDummyByte(before, _) => lead + before + 1 >= CARRIER_LOCK
    case _ => true
  }

  function Lead(chunks: seq<Chunk>): nat {
    if chunks == [] then 0 else LeadAfter(Lead(chunks[..|chunks| - 1]), chunks[|chunks| - 1])
  }

  predicate AllLed(chunks: seq<Chunk>) {
    chunks == [] || (AllLed(chunks[..|chunks| - 1]) && Led(Lead(chunks[..|chunks| - 1]), chunks[|chunks| - 1]))
  }

  // ---------------------------------------------------------------- frames

  lemma FrameIsFrame(f: Format, b: nat)
    requires Is8N1(f)
    ensures Frame(f, b) == Frame8N1(b)
  {
    forall k | 0 <= k < 10 ensures Frame(f, b)[k] == Frame8N1(b)[k] {
      if 1 <= k <= 8 {
        DataBitAt(b, 8, k - 1);
      }
    }
  }

  lemma {:induction false} FramesAreStream(f: Format, text: seq<byte>)
    requires Is8N1(f)
    ensures Frames8N1(text) == Stream(f, text)
  {
    if text != [] {
      var n := |text| - 1;
      FramesAreStream(f, text[..n]);
      FrameIsFrame(f, text[n]);
      StreamConcat(f, text[..n], [text[n]]);
      assert text == text[..n] + [text[n]];
      assert Stream(f, [text[n]]) == Frame(f, text[n]) + Stream(f, []);
    }
  }

  lemma {:induction false} StreamConcat(f: Format, a: seq<nat>, b: seq<nat>)
    requires ValidFormat(f)
    ensures Stream(f, a + b) == Stream(f, a) + Stream(f, b)
  {
    hide Frame;
    if a == [] {
      assert a + b == b;
    } else {
      StreamConcat(f, a[1..], b);
      assert (a + b)[1..] == a[1..] + b;
      assert Frame(f, a[0]) + (Stream(f, a[1..]) + Stream(f, b)) == (Frame(f, a[0]) + Stream(f, a[1..])) + Stream(f, b);
    }
  }

  lemma {:induction false} CleanIsReceived(f: Format, text: seq<byte>)
    requires Is8N1(f)
    ensures CleanText(f, text) == Received(text)
  {
    if text != [] {
      CleanIsReceived(f, text[1..]);
      WholeByte(text[0]);
    }
  }

  /** A block of framed data after enough leader is delivered exactly. */
  lemma PlaysText(f: Format, samples: seq<Sample>, p: Player, text: seq<byte>)
    requires Is8N1(f) && AtBoundary(f, p) && p.rx.phase == RxIdle
    requires text != [] ==> CARRIER_LOCK <= p.count + 1
    requires p.count + |Frames8N1(text)| <= 0xffff_ffff
    requires Ahead(samples, p.at, Carried(Frames8N1(text)))
    ensures var n := |Frames8N1(text)|;
            var r := PlayBits(f, samples, p, n);
            && r.chars == Received(text) && r.player.rx.phase == RxIdle && AtBoundary(f, r.player)
            && r.player.at == p.at + n && r.player.count == p.count + n
  {
    if text != [] {
      hide PlayBits, Run, Stretch, Stream, Frames8N1;
      PlaysData(f, samples, p, Frames8N1(text));
      FramesAreStream(f, text);
      OwnRateIsTolerated(f);
      StreamDecodes(f, p.rx, text, f.divisor);
      CleanIsReceived(f, text);
      FramesLength(text);
    } else {
      assert PlayBits(f, samples, p, 0) == Played(p, []);
    }
  }

  // ---------------------------------------------------------------- chunks

  /** A chunk is mark, frames and mark with a carrier throughout, or silence. */
  function Before(c: Chunk): nat {
    match c
    case CarrierTone(n) => n
    case CarrierToneWithDummyByte(before, _) => before
    case _ => 0
  }

  function Behind(c: Chunk): nat {
    match c
    case CarrierToneWithDummyByte(_, after) => after
    case _ => 0
  }

  function Quiet(c: Chunk): nat {
    match c
    case IntegerGap(n) => n
    case FloatingPointGap(n) => n
    case _ => 0
  }

  function Layout(c: Chunk): seq<Sample>
    requires Framed(c)
  {
    Carried(Mark(Before(c))) + Carried(Frames8N1(ChunkText(c))) + Carried(Mark(Behind(c))) + Silent(Quiet(c))
  }

  lemma ToneSamples(n: nat)
    ensures Flat(Tone(n)) == Carried(Mark(n)) && Flat(Silence(n)) == Silent(n)
  {
    if n > 0 {
      OneSegment(Segment(Carrier, [], n));
      OneSegment(Segment(Gap, [], n));
    }
  }

  lemma DataSamples(bits: seq<bool>)
    ensures Flat(Written(bits)) == Carried(bits)
  {
    if bits != [] {
      OneSegment(Segment(Data, bits, 0));
    }
  }

  lemma DummyLayout(before: nat, after: nat)
    ensures Flat(ChunkSegments(CarrierToneWithDummyByte(before, after)))
         == Carried(Mark(before)) + Carried(Frame8N1(0xaa)) + Carried(Mark(after))
  {
    var data := Written(Frame8N1(0xaa));
    FlatConcat(Tone(before) + data, Tone(after));
    FlatConcat(Tone(before), data);
    ToneSamples(before);
    ToneSamples(after);
    DataSamples(Frame8N1(0xaa));
  }

  lemma ChunkLayout(c: Chunk)
    requires Framed(c)
    ensures Flat(ChunkSegments(c)) == Layout(c)
  {
    hide Flat;
    assert Carried(Mark(0)) == [] && Carried([]) == [] && Silent(0) == [];
    match c
    case CarrierTone(n) => ToneSamples(n);
    case CarrierToneWithDummyByte(before, after) =>
      DummyLayout(before, after);
      assert Frames8N1([0xaa]) == Frame8N1(0xaa);
    case TapeDataBlock(data) => DataSamples(Frames8N1(data));
    case IntegerGap(n) => ToneSamples(n);
    case FloatingPointGap(n) => ToneSamples(n);
    case OtherChunk => ToneSamples(0);
  }

  lemma AheadParts(samples: seq<Sample>, at: nat, a: seq<Sample>, b: seq<Sample>)
    requires Ahead(samples, at, a + b)
    ensures Ahead(samples, at, a) && Ahead(samples, at + |a|, b)
    ensures at + |a| + |b| <= |samples|
  {
    var both := samples[at..at + |a + b|];
    assert both[..|a|] == a && both[|a|..] == b;
    assert samples[at..at + |a|] == both[..|a|];
    assert samples[at + |a|..at + |a| + |b|] == both[|a|..];
  }

  /** What a stretch of tape has come to: its characters, the lock's count, and an idle receiver. */
  ghost predicate Delivers(f: Format, from: Player, r: Played, length: nat, text: seq<byte>, count: nat) {
    && r.chars == Received(text) && AtBoundary(f, r.player) && r.player.rx.phase == RxIdle
    && r.player.at == from.at + length && r.player.count == count
  }

  lemma ReceivedConcat(a: seq<byte>, b: seq<byte>)
    ensures Received(a + b) == Received(a) + Received(b)
  {
  }

  lemma Joins(f: Format, samples: seq<Sample>, p: Player, m: nat, n: nat, a: seq<byte>, b: seq<byte>, mid: nat,
              end: nat)
    requires Delivers(f, p, PlayBits(f, samples, p, m), m, a, mid)
    requires Delivers(f, PlayBits(f, samples, p, m).player,
                      PlayBits(f, samples, PlayBits(f, samples, p, m).player, n), n, b, end)
    ensures Delivers(f, p, PlayBits(f, samples, p, m + n), m + n, a + b, end)
  {
    hide PlayBits, Received;
    BitsGoOn(f, samples, p, m, n);
    ReceivedConcat(a, b);
  }

  /** Leader and framed data. */
  lemma PlaysLeaderAndText(f: Format, samples: seq<Sample>, p: Player, n: nat, text: seq<byte>)
    requires Is8N1(f) && (text != [] ==> p.count + n + 1 >= CARRIER_LOCK)
    requires p.count + n + |Frames8N1(text)| <= 0xffff_ffff
    requires AtBoundary(f, p) && p.rx.phase == RxIdle
    requires Ahead(samples, p.at, Carried(Mark(n)) + Carried(Frames8N1(text)))
    ensures var length := n + |Frames8N1(text)|;
            Delivers(f, p, PlayBits(f, samples, p, length), length, text, p.count + length)
  {
    hide PlayBits, Frames8N1, Carried, Mark;
    AheadParts(samples, p.at, Carried(Mark(n)), Carried(Frames8N1(text)));
    PlaysTone(f, samples, p, n);
    PlaysText(f, samples, PlayBits(f, samples, p, n).player, text);
    Joins(f, samples, p, n, |Frames8N1(text)|, [], text, p.count + n, p.count + n + |Frames8N1(text)|);
    assert [] + text == text;
  }

  /** Trailing tone and silence deliver nothing. */
  lemma PlaysTail(f: Format, samples: seq<Sample>, p: Player, n: nat, quiet: nat)
    requires Is8N1(f) && p.count + n <= 0xffff_ffff
    requires AtBoundary(f, p) && p.rx.phase == RxIdle
    requires Ahead(samples, p.at, Carried(Mark(n)) + Silent(quiet))
    ensures Delivers(f, p, PlayBits(f, samples, p, n + quiet), n + quiet, [], if quiet > 0 then 0 else p.count + n)
  {
    hide PlayBits, Carried, Mark, Silent;
    AheadParts(samples, p.at, Carried(Mark(n)), Silent(quiet));
    PlaysTone(f, samples, p, n);
    PlaysSilence(f, samples, PlayBits(f, samples, p, n).player, quiet);
    Joins(f, samples, p, n, quiet, [], [], p.count + n, if quiet > 0 then 0 else p.count + n);
  }

  /** A chunk delivers its text. */
  lemma PlaysChunk(f: Format, samples: seq<Sample>, p: Player, c: Chunk)
    requires Is8N1(f) && Framed(c) && Led(p.count, c) && p.count + |Layout(c)| <= 0xffff_ffff
    requires AtBoundary(f, p) && p.rx.phase == RxIdle && Ahead(samples, p.at, Layout(c))
    ensures Delivers(f, p, PlayBits(f, samples, p, |Layout(c)|), |Layout(c)|, ChunkText(c), LeadAfter(p.count, c))
  {
    hide PlayBits, Frames8N1, Carried, Mark, Silent, Ahead;
    var text, n, m, quiet := ChunkText(c), Before(c), Behind(c), Quiet(c);
    var front, back := Carried(Mark(n)) + Carried(Frames8N1(text)), Carried(Mark(m)) + Silent(quiet);
    assert Layout(c) == front + back;
    FramesLength(text);
    AheadParts(samples, p.at, front, back);
    PlaysLeaderAndText(f, samples, p, n, text);
    var mid := PlayBits(f, samples, p, |front|).player;
    PlaysTail(f, samples, mid, m, quiet);
    Joins(f, samples, p, |front|, m + quiet, text, [], mid.count, LeadAfter(p.count, c));
    assert text + [] == text;
  }

  // ---------------------------------------------------------------- tapes

  lemma {:induction false} LeadBound(chunks: seq<Chunk>)
    requires AllFramed(chunks)
    ensures Lead(chunks) <= |Flat(TapeSegments(chunks))|
  {
    if chunks != [] {
      hide Flat, Frames8N1;
      var init, c := chunks[..|chunks| - 1], chunks[|chunks| - 1];
      LeadBound(init);
      FlatConcat(TapeSegments(init), ChunkSegments(c));
      ChunkLayout(c);
      FramesLength(ChunkText(c));
    }
  }

  /** From the start of the tape, before the lock. */
  lemma {:induction false} PlaysChunks(f: Format, samples: seq<Sample>, p: Player, chunks: seq<Chunk>)
    requires Is8N1(f) && AllFramed(chunks) && AllLed(chunks)
    requires AtBoundary(f, p) && p.rx.phase == RxIdle && p.at == 0 && p.count == 0
    requires |samples| <= 0xffff_ffff && Ahead(samples, 0, Flat(TapeSegments(chunks)))
    ensures var n := |Flat(TapeSegments(chunks))|;
            Delivers(f, p, PlayBits(f, samples, p, n), n, Text(chunks), Lead(chunks))
  {
    hide PlayBits, Flat, Layout, Delivers, LeadAfter, Led, ChunkSegments, ChunkText, Ahead, AtBoundary;
    if chunks == [] {
      NothingPlayed(f, samples, p);
    } else {
      var init, c := chunks[..|chunks| - 1], chunks[|chunks| - 1];
      var head := Flat(TapeSegments(init));
      FlatConcat(TapeSegments(init), ChunkSegments(c));
      ChunkLayout(c);
      AheadParts(samples, 0, head, Layout(c));
      PlaysChunks(f, samples, p, init);
      LeadBound(init);
      OneMoreChunk(f, samples, p, |head|, Text(init), Lead(init), c);
    }
  }

  lemma NothingPlayed(f: Format, samples: seq<Sample>, p: Player)
    requires AtBoundary(f, p) && p.rx.phase == RxIdle && p.count == 0
    ensures Flat([]) == [] && Delivers(f, p, PlayBits(f, samples, p, 0), 0, [], 0)
  {
  }

  lemma OneMoreChunk(f: Format, samples: seq<Sample>, p: Player, n: nat, text: seq<byte>, lead: nat, c: Chunk)
    requires Is8N1(f) && Framed(c) && Led(lead, c) && lead + |Layout(c)| <= 0xffff_ffff
    requires Delivers(f, p, PlayBits(f, samples, p, n), n, text, lead) && p.at == 0
    requires Ahead(samples, n, Layout(c))
    ensures Delivers(f, p, PlayBits(f, samples, p, n + |Layout(c)|), n + |Layout(c)|,
                     text + ChunkText(c), LeadAfter(lead, c))
  {
    hide PlayBits, Layout, LeadAfter;
    PlaysChunk(f, samples, PlayBits(f, samples, p, n).player, c);
    Joins(f, samples, p, n, |Layout(c)|, text, ChunkText(c), lead, LeadAfter(lead, c));
  }

  /** Once the tape has ended nothing more is delivered. */
  lemma {:induction false} EndIsSilent(f: Format, samples: seq<Sample>, p: Player, n: nat)
    requires ValidFormat(f) && AtBoundary(f, p) && p.rx.phase == RxIdle && p.at >= |samples|
    ensures var r := PlayBits(f, samples, p, n);
            r.chars == [] && AtBoundary(f, r.player) && r.player.rx.phase == RxIdle && r.player.at == p.at
  {
    hide Play;
    if n > 0 {
      EndIsSilent(f, samples, p, n - 1);
      PlaysSilentBit(f, samples, PlayBits(f, samples, p, n - 1).player);
    }
  }

  /** Motor just started: no carrier counted, receiver idle, the first bit not yet fetched. */
  ghost predicate AtStart(f: Format, p: Player) {
    p.at == 0 && p.tapeCounter < f.divisor && p.count == 0 && !p.present && p.rx.phase == RxIdle
  }

  /** Receiver clocks that play the whole tape from the start. */
  function WholeTape(f: Format, p: Player, samples: seq<Sample>): int {
    f.divisor - 1 - p.tapeCounter + ClocksOf(f, samples)
  }

  function ClocksOf(f: Format, samples: seq<Sample>): nat {
    |samples| * f.divisor
  }

  lemma StartsPlaying(f: Format, samples: seq<Sample>, p: Player)
    requires ValidFormat(f) && AtStart(f, p)
    ensures Play(f, samples, p, f.divisor - 1 - p.tapeCounter) == Played(p.(tapeCounter := f.divisor - 1), [])
  {
    hide Play;
    HoldsLevel(f, samples, p, f.divisor - 1 - p.tapeCounter);
  }

  /** However many bit periods have passed, what has been delivered is a prefix of the text. */
  lemma BitsDeliver(f: Format, chunks: seq<Chunk>, p: Player, n: nat)
    requires Is8N1(f) && AllFramed(chunks) && AllLed(chunks)
    requires AtBoundary(f, p) && p.rx.phase == RxIdle && p.at == 0 && p.count == 0
    requires |Flat(TapeSegments(chunks))| <= 0xffff_ffff
    ensures PlayBits(f, Flat(TapeSegments(chunks)), p, n).chars <= Received(Text(chunks))
    ensures n >= |Flat(TapeSegments(chunks))| ==>
              PlayBits(f, Flat(TapeSegments(chunks)), p, n).chars == Received(Text(chunks))
  {
    hide PlayBits, Flat;
    var samples := Flat(TapeSegments(chunks));
    assert samples[0..|samples|] == samples;
    PlaysChunks(f, samples, p, chunks);
    if n >= |samples| {
      BitsGoOn(f, samples, p, |samples|, n - |samples|);
      EndIsSilent(f, samples, PlayBits(f, samples, p, |samples|).player, n - |samples|);
    } else {
      BitsGoOn(f, samples, p, n, |samples| - n);
    }
  }

  /** What has been received is a prefix of the text, and all of it once the tape has been played. */
  predicate ReceivedSoFar(chars: seq<Char>, text: seq<Char>, played: bool) {
    chars <= text && (played ==> chars == text)
  }

  /**
   * However many receiver clocks have passed since the start, the characters delivered are a prefix of
   * the tape's text, each without an error; once the tape has been played they are all of it.
   */
  lemma TapeDelivers(f: Format, chunks: seq<Chunk>, p: Player, clocks: nat)
    requires Is8N1(f) && AllFramed(chunks) && AllLed(chunks) && AtStart(f, p)
    requires |Flat(TapeSegments(chunks))| <= 0xffff_ffff
    ensures var samples := Flat(TapeSegments(chunks));
            ReceivedSoFar(Play(f, samples, p, clocks).chars, Received(Text(chunks)), clocks >= WholeTape(f, p, samples))
  {
    hide Play, PlayBits, Flat, ClocksOf, StillPresent, ReceivedSoFar;
    var samples := Flat(TapeSegments(chunks));
    hide Received, TapeSegments, Text, AllLed, AllFramed;
    var d, first := f.divisor, f.divisor - 1 - p.tapeCounter;
    var q := p.(tapeCounter := d - 1);
    StartsPlaying(f, samples, p);
    if clocks < first {
      NothingSoFar(f, samples, p, clocks, first);
      NoChars(Received(Text(chunks)));
    } else {
      NothingBefore(f, samples, p, q, first, clocks);
      ClocksDeliver(f, chunks, q, clocks - first);
    }
  }

  lemma NoChars(text: seq<Char>)
    ensures ReceivedSoFar([], text, false)
  {
  }

  lemma NothingSoFar(f: Format, samples: seq<Sample>, p: Player, clocks: nat, first: nat)
    requires clocks <= first && Play(f, samples, p, first).chars == []
    ensures Play(f, samples, p, clocks).chars == []
  {
    hide Play;
    PlayOn(f, samples, p, clocks, first - clocks);
  }

  lemma NothingBefore(f: Format, samples: seq<Sample>, p: Player, q: Player, first: nat, clocks: nat)
    requires first <= clocks && Play(f, samples, p, first) == Played(q, [])
    ensures Play(f, samples, p, clocks).chars == Play(f, samples, q, clocks - first).chars
  {
    hide Play;
    PlayOn(f, samples, p, first, clocks - first);
    assert [] + Play(f, samples, q, clocks - first).chars == Play(f, samples, q, clocks - first).chars;
  }

  lemma ClocksDeliver(f: Format, chunks: seq<Chunk>, q: Player, clocks: nat)
    requires Is8N1(f) && AllFramed(chunks) && AllLed(chunks)
    requires AtBoundary(f, q) && q.rx.phase == RxIdle && q.at == 0 && q.count == 0
    requires |Flat(TapeSegments(chunks))| <= 0xffff_ffff
    ensures var samples := Flat(TapeSegments(chunks));
            ReceivedSoFar(Play(f, samples, q, clocks).chars, Received(Text(chunks)), clocks >= ClocksOf(f, samples))
  {
    hide Play, PlayBits, Flat, Received;
    var samples, d := Flat(TapeSegments(chunks)), f.divisor;
    // Rounded up to a whole number of bit periods.
    var n := clocks / d + 1;
    RoundUp(clocks, d);
    BitsAreClocks(f, samples, q, n, n * d);
    BitsDeliver(f, chunks, q, n);
    PlayOn(f, samples, q, clocks, n * d - clocks);
    var whole := |samples| * d;
    if clocks >= whole {
      BitsAreClocks(f, samples, q, |samples|, whole);
      BitsDeliver(f, chunks, q, |samples|);
      PlayOn(f, samples, q, whole, clocks - whole);
    }
  }

  lemma RoundUp(x: nat, d: nat)
    requires d > 0
    ensures x <= (x / d + 1) * d
  {
    assert x == x / d * d + x % d;
  }
}
