// Tapes as streams of bits: UEF chunks turned into segments and walked with a cursor, and the raw
// byte stream that plays and records 8N1 frames.

module TapeStreams {
  import opened Bits

  // ---------------------------------------------------------------- what a tape means

  /** One bit period of a tape: the level on the data line and whether there is a tone. */
  datatype Sample = Sample(bit: bool, carrier: bool)

  datatype Kind = Data | Carrier | Gap

  datatype Segment = Segment(kind: Kind, bits: seq<bool>, count: nat)

  /** The tape chunks of a UEF file, as parsed; a floating-point gap is given by its number of bit periods. */
  datatype Chunk =
    | CarrierTone(cycles: nat)
    | CarrierToneWithDummyByte(before: nat, after: nat)
    | TapeDataBlock(data: seq<byte>)
    | ExplicitTapeDataBlock(raw: seq<byte>, numBits: nat)
    | IntegerGap(duration: nat)
    | FloatingPointGap(bitPeriods: nat)
    | OtherChunk

  function Size(s: Segment): nat {
    if s.kind == Data then |s.bits| else s.count
  }

  /** Sample i of a segment: tone and data carry, a gap does not; all but data is at mark. */
  function SampleAt(s: Segment, i: nat): Sample
    requires i < Size(s)
  {
    Sample(s.kind != Data || s.bits[i], s.kind != Gap)
  }

  function Samples(s: Segment): (r: seq<Sample>)
    ensures |r| == Size(s)
  {
    seq(Size(s), i requires 0 <= i < Size(s) => SampleAt(s, i))
  }

  function Flat(segments: seq<Segment>): seq<Sample> {
    if segments == [] then [] else Flat(segments[..|segments| - 1]) + Samples(segments[|segments| - 1])
  }

  lemma {:induction false} FlatConcat(a: seq<Segment>, b: seq<Segment>)
    ensures Flat(a + b) == Flat(a) + Flat(b)
  {
    if b == [] {
      assert a + b == a;
    } else {
      hide Samples;
      var init, last := b[..|b| - 1], Samples(b[|b| - 1]);
      FlatConcat(a, init);
      assert (a + b)[..|a + b| - 1] == a + init;
      assert Flat(a) + (Flat(init) + last) == (Flat(a) + Flat(init)) + last;
    }
  }

  // ---------------------------------------------------------------- framing

  function DataBits(b: nat, n: nat): (bits: seq<bool>)
    ensures |bits| == n
  {
    if n == 0 then [] else DataBits(b, n - 1) + [Bit(b, n - 1)]
  }

  /** An 8N1 frame: start bit, data bits from the lowest up, stop bit. */
  function Frame8N1(b: nat): (bits: seq<bool>)
    ensures |bits| == 10
  {
    [false] + DataBits(b, 8) + [true]
  }

  function Frames8N1(bytes: seq<byte>): seq<bool> {
    if bytes == [] then [] else Frames8N1(bytes[..|bytes| - 1]) + Frame8N1(bytes[|bytes| - 1])
  }

  lemma NoFrames()
    ensures Frames8N1([]) == []
  {
  }

  lemma {:induction false} FramesLength(bytes: seq<byte>)
    ensures |Frames8N1(bytes)| == 10 * |bytes|
  {
    if bytes != [] {
      FramesLength(bytes[..|bytes| - 1]);
    }
  }

  function RawBits(bytes: seq<byte>, n: nat): (bits: seq<bool>)
    requires n <= 8 * |bytes|
    ensures |bits| == n
  {
    if n == 0 then [] else RawBits(bytes, n - 1) + [Bit(bytes[(n - 1) / 8], (n - 1) % 8)]
  }

  /** Bit i of an explicit data block is bit i % 8 of byte i / 8: the bytes in order, each from its lowest bit up. */
  lemma {:induction false} RawBitAt(bytes: seq<byte>, n: nat, i: nat)
    requires i < n <= 8 * |bytes|
    ensures RawBits(bytes, n)[i] == Bit(bytes[i / 8], i % 8)
  {
    if i < n - 1 {
      RawBitAt(bytes, n - 1, i);
    }
  }

  // ---------------------------------------------------------------- segments of chunks

  ghost predicate WellFormed(c: Chunk) {
    c.ExplicitTapeDataBlock? ==> c.numBits <= 8 * |c.raw|
  }

  function Tone(n: nat): seq<Segment> {
    if n > 0 then [Segment(Carrier, [], n)] else []
  }

  function Silence(n: nat): seq<Segment> {
    if n > 0 then [Segment(Gap, [], n)] else []
  }

  function Written(bits: seq<bool>): seq<Segment> {
    if bits != [] then [Segment(Data, bits, 0)] else []
  }

  function ChunkSegments(c: Chunk): seq<Segment>
    requires WellFormed(c)
  {
    match c
    case CarrierTone(n) => Tone(n)
    case CarrierToneWithDummyByte(before, after) => Tone(before) + Written(Frame8N1(0xaa)) + Tone(after)
    case TapeDataBlock(data) => Written(Frames8N1(data))
    case ExplicitTapeDataBlock(raw, n) => Written(RawBits(raw, n))
    case IntegerGap(n) => Silence(n)
    case FloatingPointGap(n) => Silence(n)
    case OtherChunk => []
  }

  function TapeSegments(chunks: seq<Chunk>): seq<Segment>
    requires forall i | 0 <= i < |chunks| :: WellFormed(chunks[i])
  {
    if chunks == [] then [] else TapeSegments(chunks[..|chunks| - 1]) + ChunkSegments(chunks[|chunks| - 1])
  }

  ghost predicate NoEmptySegment(segments: seq<Segment>) {
    forall i | 0 <= i < |segments| :: Size(segments[i]) > 0
  }

  // ---------------------------------------------------------------- UefTapeStream

  class UefTapeStream {
    var segments: seq<Segment>
    var segIdx: nat
    var bitPos: nat
    var lastCarrier: bool

    ghost predicate Valid()
      reads this
    {
      && NoEmptySegment(segments)
      && segIdx <= |segments|
      && (if segIdx == |segments| then bitPos == 0 else bitPos < Size(segments[segIdx]))
    }

    /** The cursor as an index into the flat sequence of samples. */
    ghost function Index(): nat
      requires segIdx <= |segments|
      reads this
    {
      |Flat(segments[..segIdx])| + bitPos
    }

    static method Expand8N1(bytes: seq<byte>) returns (bits: seq<bool>)
      ensures bits == Frames8N1(bytes)
    {
      bits := [];
      for n := 0 to |bytes|
        invariant bits == Frames8N1(bytes[..n])
      {
        var before := bits;
        bits := bits + [false];
        for i := 0 to 8
          invariant bits == before + [false] + DataBits(bytes[n], i)
        {
          bits := bits + [Bit(bytes[n], i)];
        }
        bits := bits + [true];
        assert bytes[..n + 1][..n] == bytes[..n];
        assert bits == before + Frame8N1(bytes[n]);
      }
      assert bytes[..|bytes|] == bytes;
    }

    static method ExpandRaw(bytes: seq<byte>, numBits: nat) returns (bits: seq<bool>)
      requires numBits <= 8 * |bytes|
      ensures bits == RawBits(bytes, numBits)
    {
      bits := [];
      for i := 0 to numBits
        invariant bits == RawBits(bytes, i)
      {
        bits := bits + [Bit(bytes[i / 8], i % 8)];
      }
    }

    method BuildSegments(chunks: seq<Chunk>)
      requires segments == []
      requires forall i | 0 <= i < |chunks| :: WellFormed(chunks[i])
      modifies this`segments, this`lastCarrier
      ensures segments == TapeSegments(chunks) && NoEmptySegment(segments)
      ensures lastCarrier <==> |Flat(segments)| > 0 && Flat(segments)[0].carrier
    {
      for n := 0 to |chunks|
        invariant segments == TapeSegments(chunks[..n]) && NoEmptySegment(segments)
      {
        assert chunks[..n + 1][..n] == chunks[..n];
        AddChunk(chunks[n]);
      }
      assert chunks[..|chunks|] == chunks;
      lastCarrier := segments != [] && segments[0].kind != Gap;
      FirstSample(segments);
    }

    method AddChunk(c: Chunk)
      requires WellFormed(c) && NoEmptySegment(segments)
      modifies this`segments
      ensures segments == old(segments) + ChunkSegments(c) && NoEmptySegment(segments)
    {
      match c
      case CarrierTone(n) =>
        Append(Carrier, n);
      case CarrierToneWithDummyByte(before, after) =>
        AddDummyByte(before, after);
      case TapeDataBlock(data) =>
        var bits := Expand8N1(data);
        if bits != [] { segments := segments + [Segment(Data, bits, 0)]; }
      case ExplicitTapeDataBlock(raw, numBits) =>
        if numBits > 0 {
          var bits := ExpandRaw(raw, numBits);
          segments := segments + [Segment(Data, bits, 0)];
        }
      case IntegerGap(n) =>
        Append(Gap, n);
      case FloatingPointGap(n) =>
        Append(Gap, n);
      case OtherChunk =>
    }

    method Append(kind: Kind, n: nat)
      requires kind != Data && NoEmptySegment(segments)
      modifies this`segments
      ensures segments == old(segments) + (if kind == Carrier then Tone(n) else Silence(n))
      ensures NoEmptySegment(segments)
    {
      if n > 0 { segments := segments + [Segment(kind, [], n)]; }
    }

    method AddDummyByte(before: nat, after: nat)
      requires NoEmptySegment(segments)
      modifies this`segments
      ensures segments == old(segments) + (Tone(before) + Written(Frame8N1(0xaa)) + Tone(after))
      ensures NoEmptySegment(segments)
    {
      Append(Carrier, before);
      var bits := Expand8N1([0xaa]);
      assert bits == Frame8N1(0xaa);
      segments := segments + [Segment(Data, bits, 0)];
      Append(Carrier, after);
    }

    constructor (chunks: seq<Chunk>)
      requires forall i | 0 <= i < |chunks| :: WellFormed(chunks[i])
      ensures Valid() && segments == TapeSegments(chunks) && Index() == 0
      ensures lastCarrier <==> |Flat(segments)| > 0 && Flat(segments)[0].carrier
    {
      segments, segIdx, bitPos, lastCarrier := [], 0, 0, false;
      new;
      BuildSegments(chunks);
    }

    predicate EndOfTape()
      reads this
    {
      segIdx >= |segments|
    }

    /** `at_carrier` is the carrier flag of the sample returned last; past the end there is none. */
    method NextBit() returns (bit: bool)
      requires Valid()
      modifies this
      ensures Valid() && segments == old(segments)
      ensures var flat, at := Flat(segments), old(Index());
              if at < |flat| then
                bit == flat[at].bit && lastCarrier == flat[at].carrier && Index() == at + 1
              else
                at == |flat| && bit && !lastCarrier && Index() == at
    {
      hide Flat;
      Cursor(segments, segIdx, bitPos);
      if segIdx >= |segments| {
        lastCarrier := false;
        return true;
      }
      var seg := segments[segIdx];
      lastCarrier := seg.kind != Gap;
      bit := if seg.kind == Data then seg.bits[bitPos] else true;
      bitPos := bitPos + 1;
      if bitPos >= Size(seg) {
        Cursor(segments, segIdx + 1, 0);
        segIdx := segIdx + 1;
        bitPos := 0;
      }
    }

    /** The cursor is past the last sample exactly when the index is the tape's length. */
    lemma EndIsTheLength()
      requires Valid()
      ensures EndOfTape() <==> Index() == |Flat(segments)|
    {
      Cursor(segments, segIdx, bitPos);
    }
  }

  lemma FirstSample(segments: seq<Segment>)
    requires NoEmptySegment(segments)
    ensures (segments != [] && segments[0].kind != Gap) <==> (|Flat(segments)| > 0 && Flat(segments)[0].carrier)
  {
    if segments != [] {
      FlatConcat([segments[0]], segments[1..]);
      assert segments == [segments[0]] + segments[1..];
      assert Flat([segments[0]]) == Samples(segments[0]);
    }
  }

  /** A position inside a segment is that segment's sample in the flat sequence. */
  lemma Cursor(segments: seq<Segment>, i: nat, j: nat)
    requires i <= |segments|
    requires i < |segments| ==> j < Size(segments[i])
    ensures i == |segments| ==> |Flat(segments[..i])| == |Flat(segments)|
    ensures i < |segments| ==>
              && |Flat(segments[..i])| + Size(segments[i]) == |Flat(segments[..i + 1])| <= |Flat(segments)|
              && Flat(segments)[|Flat(segments[..i])| + j] == SampleAt(segments[i], j)
  {
    if i == |segments| {
      assert segments[..i] == segments;
    } else {
      var head, tail := segments[..i + 1], segments[i + 1..];
      assert segments == head + tail && head[..i] == segments[..i];
      FlatConcat(head, tail);
    }
  }

  // ---------------------------------------------------------------- RawBytesTapeStream

  /** The recording side: -1 waits for a start bit, 0 to 7 take data bits, 8 takes the stop bit. */
  datatype Recorder = Recorder(phase: int, partial: nat, recorded: seq<nat>)

  function Record(r: Recorder, bit: bool): Recorder {
    if r.phase == -1 then (if bit then r else Recorder(0, 0, r.recorded))
    else if r.phase < 8 then
      Recorder(r.phase + 1, if bit && r.phase >= 0 then OrBit(r.partial, true, r.phase) else r.partial, r.recorded)
    else Recorder(-1, 0, r.recorded + [r.partial])
  }

  function RecordAll(r: Recorder, bits: seq<bool>): Recorder {
    if bits == [] then r else Record(RecordAll(r, bits[..|bits| - 1]), bits[|bits| - 1])
  }

  class RawBytesTapeStream {
    var data: seq<byte>
    var txByte: nat
    var txBit: nat
    var recorded: seq<nat>
    var rxState: int
    var rxByte: nat

    ghost predicate Valid()
      reads this
    {
      txByte <= |data| && txBit < 10 && (txByte == |data| ==> txBit == 0) && -1 <= rxState <= 8
    }

    ghost function Index(): nat
      reads this
    {
      10 * txByte + txBit
    }

    ghost function Recording(): Recorder
      reads this
    {
      Recorder(rxState, rxByte, recorded)
    }

    constructor (bytes: seq<byte>)
      ensures Valid() && data == bytes && Index() == 0 && Recording() == Recorder(-1, 0, [])
    {
      data, txByte, txBit := bytes, 0, 0;
      recorded, rxState, rxByte := [], -1, 0;
    }

    predicate EndOfTape()
      reads this
    {
      txByte >= |data|
    }

    /** Plays the frames of the data one bit at a time and then stays at mark. */
    method NextBit() returns (bit: bool)
      requires Valid()
      modifies this`txByte, this`txBit
      ensures Valid()
      ensures var bits, at := Frames8N1(data), old(Index());
              if at < |bits| then bit == bits[at] && Index() == at + 1
              else bit && Index() == at
    {
      FramesLength(data);
      if txByte >= |data| { return true; }
      FrameBitAt(data, txByte, txBit);
      if txBit == 0 {
        bit := false;
      } else if txBit <= 8 {
        bit := Bit(data[txByte], txBit - 1);
      } else {
        bit := true;
      }
      txBit := txBit + 1;
      if txBit == 10 {
        txBit := 0;
        txByte := txByte + 1;
      }
    }

    method WriteBit(bit: bool)
      requires Valid()
      modifies this`recorded, this`rxState, this`rxByte
      ensures Valid() && Recording() == Record(old(Recording()), bit)
    {
      if rxState == -1 {
        if !bit {
          rxState := 0;
          rxByte := 0;
        }
        return;
      }
      if rxState < 8 {
        if bit {
          rxByte := OrBit(rxByte, true, rxState);
        }
        rxState := rxState + 1;
        return;
      }
      recorded := recorded + [rxByte];
      rxState := -1;
      rxByte := 0;
    }
  }

  lemma {:induction false} FramesPrefix(bytes: seq<byte>, n: nat)
    requires n <= |bytes|
    ensures 10 * n <= |Frames8N1(bytes)| && Frames8N1(bytes)[..10 * n] == Frames8N1(bytes[..n])
  {
    FramesLength(bytes);
    FramesLength(bytes[..n]);
    if n == |bytes| {
      assert bytes[..n] == bytes;
    } else {
      var init := bytes[..|bytes| - 1];
      FramesPrefix(init, n);
      FramesLength(init);
      assert init[..n] == bytes[..n];
      assert Frames8N1(bytes)[..10 * n] == Frames8N1(init)[..10 * n];
    }
  }

  lemma FrameBitAt(bytes: seq<byte>, n: nat, k: nat)
    requires n < |bytes| && k < 10
    ensures 10 * n + k < |Frames8N1(bytes)|
    ensures Frames8N1(bytes)[10 * n + k] == Frame8N1(bytes[n])[k]
    ensures Frame8N1(bytes[n])[k] == if k == 0 then false else if k <= 8 then Bit(bytes[n], k - 1) else true
  {
    FramesPrefix(bytes, n + 1);
    FramesLength(bytes);
    FramesLength(bytes[..n]);
    assert bytes[..n + 1][..n] == bytes[..n];
    assert Frames8N1(bytes)[10 * n + k] == Frames8N1(bytes)[..10 * (n + 1)][10 * n + k];
    if 1 <= k <= 8 {
      DataBitAt(bytes[n], 8, k - 1);
    }
  }

  lemma {:induction false} DataBitAt(b: nat, n: nat, k: nat)
    requires k < n
    ensures DataBits(b, n)[k] == Bit(b, k)
  {
    if k < n - 1 {
      DataBitAt(b, n - 1, k);
    }
  }
}
