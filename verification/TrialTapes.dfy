// The shortest tapes that try a receiver's patience, and when their characters come.

module TrialTapes {
  import opened Bits
  import opened Receiver
  import opened TapeStreams
  import opened TapeText
  import opened TapePlayer
  import opened TapeTrails
  import opened SerialUlaSpec
  import Loading = TapeLoading

  /** Just enough leader, then the bytes. */
  function Led(text: seq<byte>): seq<Chunk> {
    [CarrierTone(99)] + [TapeDataBlock(text)]
  }

  /** The tape that ends so many carrier bits after its bytes. */
  function TrialTape(text: seq<byte>, trail: nat): seq<Chunk> {
    Led(text) + [CarrierTone(trail)]
  }

  lemma LeaderIs()
    ensures var lead := [CarrierTone(99)];
            && AllFramed(lead) && Flat(TapeSegments(lead)) == Loading.Layout(CarrierTone(99)) && Text(lead) == []
            && Loading.AllLed(lead) && Loading.Lead(lead) == 99 && GapsTrail(lead, 0)
  {
    hide Flat, Loading.Layout;
    assert [] + [CarrierTone(99)] == [CarrierTone(99)];
    NoSamples();
    OneChunkMore([], CarrierTone(99));
    assert [] + Loading.Layout(CarrierTone(99)) == Loading.Layout(CarrierTone(99));
  }

  lemma LedIs(text: seq<byte>)
    requires text != []
    ensures AllFramed(Led(text)) && Text(Led(text)) == text && Loading.AllLed(Led(text)) && Trail(Led(text)) == 0
    ensures Flat(TapeSegments(Led(text))) == Loading.Layout(CarrierTone(99)) + Loading.Layout(TapeDataBlock(text))
  {
    hide Flat, Loading.Layout;
    LeaderIs();
    OneChunkMore([CarrierTone(99)], TapeDataBlock(text));
    assert [] + text == text;
  }

  lemma TrialTapeIs(text: seq<byte>, trail: nat)
    requires text != []
    ensures AllFramed(TrialTape(text, trail)) && AllFramed(Led(text))
    ensures Text(TrialTape(text, trail)) == text && Loading.AllLed(TrialTape(text, trail))
    ensures Trail(TrialTape(text, trail)) == trail
    ensures Flat(TapeSegments(TrialTape(text, trail)))
         == Flat(TapeSegments(Led(text))) + Loading.Layout(CarrierTone(trail))
  {
    hide Flat, Loading.Layout, Led;
    LedIs(text);
    OneChunkMore(Led(text), CarrierTone(trail));
    assert text + [] == text;
  }

  lemma TrialTapeTrails(text: seq<byte>, trail: nat)
    requires text != []
    ensures Trailed(TrialTape(text, trail), trail)
  {
    TrialTapeIs(text, trail);
    var tape := TrialTape(text, trail);
    assert tape[..2] == Led(text) && Led(text)[..1] == [CarrierTone(99)] && [CarrierTone(99)][..0] == [];
    assert GapsTrail([CarrierTone(99)], trail);
    assert GapsTrail(Led(text), trail);
  }

  lemma TrialTapeSize(text: seq<byte>, trail: nat)
    requires text != []
    ensures AllFramed(Led(text)) && AllFramed(TrialTape(text, trail))
    ensures |Flat(TapeSegments([CarrierTone(99)]))| == 99
    ensures |Flat(TapeSegments(Led(text)))| == 99 + 10 * |text|
    ensures |Flat(TapeSegments(TrialTape(text, trail)))| == 99 + 10 * |text| + trail
  {
    hide Flat, Loading.Layout, Led, TrialTape;
    LeaderIs();
    LedIs(text);
    TrialTapeIs(text, trail);
    LayoutLength(CarrierTone(99));
    LayoutLength(TapeDataBlock(text));
    LayoutLength(CarrierTone(trail));
  }

  /** The trial tape's player has begun with the leader, and with the leader and the bytes. */
  lemma TrialTapeBegins(f: Format, p: Player, text: seq<byte>, trail: nat)
    requires text != [] && AllFramed(TrialTape(text, trail)) && Loads(f, TrialTape(text, trail), p)
    ensures var samples := Flat(TapeSegments(TrialTape(text, trail)));
            AllFramed(Led(text)) && BeginsWith(f, samples, p, Led(text)) && BeginsWith(f, samples, p, [CarrierTone(99)])
  {
    hide Flat, Loading.Layout, Ahead, TapeSegments;
    var samples := Flat(TapeSegments(TrialTape(text, trail)));
    LeaderIs();
    LedIs(text);
    TrialTapeIs(text, trail);
    assert samples[0..|samples|] == samples;
    WholeAhead(samples);
    Loading.AheadParts(samples, 0, Flat(TapeSegments(Led(text))), Loading.Layout(CarrierTone(trail)));
    Loading.AheadParts(samples, 0, Loading.Layout(CarrierTone(99)), Loading.Layout(TapeDataBlock(text)));
  }

  lemma WholeAhead(samples: seq<Sample>)
    ensures Ahead(samples, 0, samples)
  {
    assert samples[0..|samples|] == samples;
  }

  // ---------------------------------------------------------------- by the clock

  /** The clock of the first character, from the boundary before the first bit. */
  function FirstAt(f: Format): nat
    requires ValidFormat(f)
  {
    108 * f.divisor + Confirm(f)
  }

  lemma IdleAfterLeader(f: Format, samples: seq<Sample>, p: Player)
    requires AllFramed([CarrierTone(99)]) && BeginsWith(f, samples, p, [CarrierTone(99)])
    ensures var r := PlayBits(f, samples, p, 99); r.chars == [] && BitsIn(r.player.rx) == 0
  {
    hide Flat, Play;
    LeaderIs();
    LayoutLength(CarrierTone(99));
    Loading.PlaysChunks(f, samples, p, [CarrierTone(99)]);
  }

  /** Before the first character's stop bit there is nothing. */
  lemma FirstNoSooner(f: Format, p: Player, text: seq<byte>, trail: nat)
    requires text != [] && AllFramed(TrialTape(text, trail)) && Loads(f, TrialTape(text, trail), p)
    ensures Play(f, Flat(TapeSegments(TrialTape(text, trail))), p, FirstAt(f) - 1).chars == []
  {
    hide Flat, Play, PlayBits, Loads, BeginsWith, TrialTape, Led, BitsIn, Confirm;
    var tape := TrialTape(text, trail);
    LoadsIs8N1(f, tape, p);
    ConfirmWithin(f);
    TrialTapeBegins(f, p, text, trail);
    IdleAfterLeader(f, Flat(TapeSegments(tape)), p);
    TenBitsEach(f, tape, p, 99, 9);
    CharsAtClock(f, tape, p, 108, Confirm(f) - 1, FirstAt(f) - 1);
  }

  /** After the leader and the bytes all of them are there. */
  lemma AllAfterLast(f: Format, p: Player, text: seq<byte>, trail: nat)
    requires text != [] && AllFramed(TrialTape(text, trail)) && Loads(f, TrialTape(text, trail), p)
    ensures |PlayBits(f, Flat(TapeSegments(TrialTape(text, trail))), p, 99 + 10 * |text|).chars| == |text|
  {
    hide Flat, PlayBits, Loads, BeginsWith, TrialTape, Led;
    var samples := Flat(TapeSegments(TrialTape(text, trail)));
    TrialTapeBegins(f, p, text, trail);
    TrialTapeSize(text, trail);
    LedIs(text);
    ChunksDelivered(f, samples, p, Led(text));
  }

  /** The second character comes ten bits after the first. */
  lemma SecondInTenBits(f: Format, p: Player, trail: nat)
    requires AllFramed(TrialTape([0, 0], trail)) && Loads(f, TrialTape([0, 0], trail), p)
    ensures |Play(f, Flat(TapeSegments(TrialTape([0, 0], trail))), p, FirstAt(f) + 10 * f.divisor).chars| == 2
  {
    hide Flat, Play, PlayBits, Loads, TrialTape, Confirm;
    var tape := TrialTape([0, 0], trail);
    LoadsIs8N1(f, tape, p);
    ConfirmWithin(f);
    AllAfterLast(f, p, [0, 0], trail);
    CharsAtClock(f, tape, p, 118, Confirm(f), FirstAt(f) + 10 * f.divisor);
  }

  lemma DropClock(f: Format, trail: nat)
    requires Loading.Is8N1(f)
    ensures FirstAt(f) + Linger(f, trail) == (109 + trail) * f.divisor + 1
    ensures 0 <= 109 * f.divisor <= FirstAt(f) + Linger(f, trail)
  {
    var d := f.divisor;
    hide Confirm;
    ConfirmWithin(f);
    assert (108 + (trail + 1)) * d == 108 * d + (trail + 1) * d;
    assert (109 + trail) * d == 109 * d + trail * d;
  }

  /** The carrier drops that many clocks after the last character. */
  lemma DropsAfterTrail(f: Format, p: Player, trail: nat)
    requires AllFramed(TrialTape([0], trail)) && Loads(f, TrialTape([0], trail), p)
    ensures !Play(f, Flat(TapeSegments(TrialTape([0], trail))), p, FirstAt(f) + Linger(f, trail)).player.present
  {
    hide Flat, Play, PlayBits, Loads, TrialTape, Confirm, FirstAt, Linger, Fetch, Loading.Is8N1;
    var tape, n := TrialTape([0], trail), 109 + trail;
    var samples := Flat(TapeSegments(tape));
    LoadsIs8N1(f, tape, p);
    ConfirmWithin(f);
    TrialTapeSize([0], trail);
    DropClock(f, trail);
    CharsAtClock(f, tape, p, n, 1, FirstAt(f) + Linger(f, trail));
    StaysSteady(f, tape, p, n);
    DropsAtEnd(f, samples, PlayBits(f, samples, p, n).player);
  }

  lemma CharBeforeDrop(f: Format, p: Player, trail: nat)
    requires AllFramed(TrialTape([0], trail)) && Loads(f, TrialTape([0], trail), p)
    ensures |Play(f, Flat(TapeSegments(TrialTape([0], trail))), p, FirstAt(f) + Linger(f, trail)).chars| >= 1
  {
    hide Flat, Play, PlayBits, Loads, TrialTape, FirstAt, Linger, Loading.Is8N1, Confirm;
    var tape := TrialTape([0], trail);
    LoadsIs8N1(f, tape, p);
    ConfirmWithin(f);
    DropClock(f, trail);
    AllAfterLast(f, p, [0], trail);
    CharsAtClock(f, tape, p, 109, 0, 109 * f.divisor);
    CharsGrow(f, Flat(TapeSegments(tape)), p, 109 * f.divisor, FirstAt(f) + Linger(f, trail));
  }

  lemma DropsAtEnd(f: Format, samples: seq<Sample>, p: Player)
    requires AtBoundary(f, p) && p.at >= |samples|
    ensures !Fetch(samples, p).present
  {
  }
}
