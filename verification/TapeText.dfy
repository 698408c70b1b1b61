// What is written on a tape: the bytes of its framed chunks, and the proof that a recorder that
// listens to the whole tape writes down exactly those.

module TapeText {
  import opened Bits
  import opened TapeStreams

  /** Chunks whose data is framed; explicit data blocks hold raw bits. */
  predicate Framed(c: Chunk) {
    !c.ExplicitTapeDataBlock?
  }

  ghost predicate AllFramed(chunks: seq<Chunk>) {
    forall i | 0 <= i < |chunks| :: Framed(chunks[i])
  }

  function ChunkText(c: Chunk): seq<byte> {
    match c
    case TapeDataBlock(data) => data
    case CarrierToneWithDummyByte(_, _) => [0xaa]
    case _ => []
  }

  function Text(chunks: seq<Chunk>): seq<byte> {
    if chunks == [] then [] else Text(chunks[..|chunks| - 1]) + ChunkText(chunks[|chunks| - 1])
  }

  function Levels(samples: seq<Sample>): seq<bool> {
    seq(|samples|, i requires 0 <= i < |samples| => samples[i].bit)
  }

  // ---------------------------------------------------------------- the recorder

  const BLANK := Recorder(-1, 0, [])

  lemma {:induction false} RecordConcat(r: Recorder, a: seq<bool>, b: seq<bool>)
    ensures RecordAll(r, a + b) == RecordAll(RecordAll(r, a), b)
  {
    if b == [] {
      assert a + b == a;
    } else {
      RecordConcat(r, a, b[..|b| - 1]);
      assert (a + b)[..|a + b| - 1] == a + b[..|b| - 1];
    }
  }

  lemma {:induction false} MarkIsNotRecorded(r: Recorder, bits: seq<bool>)
    requires r.phase == -1 && forall i | 0 <= i < |bits| :: bits[i]
    ensures RecordAll(r, bits) == r
  {
    if bits != [] {
      MarkIsNotRecorded(r, bits[..|bits| - 1]);
    }
  }

  lemma {:induction false} DataBitsRecorded(b: nat, n: nat, heard: seq<nat>)
    requires n <= 8
    ensures RecordAll(Recorder(0, 0, heard), DataBits(b, n)) == Recorder(n, Low(b, n), heard)
  {
    if n > 0 {
      DataBitsRecorded(b, n - 1, heard);
    }
  }

  lemma FrameRecorded(b: byte, heard: seq<nat>, partial: nat)
    ensures RecordAll(Recorder(-1, partial, heard), Frame8N1(b)) == Recorder(-1, 0, heard + [b])
  {
    var r := Recorder(-1, partial, heard);
    RecordConcat(r, [false], DataBits(b, 8));
    RecordConcat(r, [false] + DataBits(b, 8), [true]);
    assert RecordAll(r, [false]) == Recorder(0, 0, heard) by {
      assert RecordAll(r, []) == r;
    }
    DataBitsRecorded(b, 8, heard);
    WholeByte(b);
    var q := Recorder(8, b, heard);
    assert RecordAll(q, [true]) == Record(q, true) by {
      assert RecordAll(q, []) == q;
    }
  }

  lemma {:induction false} FramesRecorded(bytes: seq<byte>, r: Recorder)
    requires r.phase == -1
    ensures var t := RecordAll(r, Frames8N1(bytes)); t.phase == -1 && t.recorded == r.recorded + bytes
  {
    if bytes != [] {
      var n := |bytes| - 1;
      FramesRecorded(bytes[..n], r);
      RecordConcat(r, Frames8N1(bytes[..n]), Frame8N1(bytes[n]));
      var t := RecordAll(r, Frames8N1(bytes[..n]));
      FrameRecorded(bytes[n], t.recorded, t.partial);
      assert bytes == bytes[..n] + [bytes[n]];
    }
  }

  // ---------------------------------------------------------------- whole tapes

  lemma LevelsConcat(a: seq<Sample>, b: seq<Sample>)
    ensures Levels(a + b) == Levels(a) + Levels(b)
  {
  }

  lemma OneSegment(s: Segment)
    ensures Flat([s]) == Samples(s)
    ensures s.kind == Data ==> Levels(Samples(s)) == s.bits
  {
    assert [s][..0] == [];
    assert Flat([]) == [];
  }

  /** The levels that a framed chunk puts on the line: mark, frames, mark. */
  lemma ChunkLevels(c: Chunk)
    requires Framed(c)
    ensures exists before, after :: Surrounds(c, before, after)
  {
    match c
    case CarrierTone(n) => ToneLevels(n); assert Surrounds(c, n, 0);
    case CarrierToneWithDummyByte(n, m) =>
      var data := Written(Frame8N1(0xaa));
      ToneLevels(n);
      ToneLevels(m);
      OneSegment(data[0]);
      FlatConcat(Tone(n) + data, Tone(m));
      FlatConcat(Tone(n), data);
      LevelsConcat(Flat(Tone(n)) + Flat(data), Flat(Tone(m)));
      LevelsConcat(Flat(Tone(n)), Flat(data));
      assert Frames8N1([0xaa]) == Frame8N1(0xaa);
      assert Surrounds(c, n, m);
    case TapeDataBlock(data) =>
      if data != [] {
        OneSegment(Segment(Data, Frames8N1(data), 0));
      }
      assert Surrounds(c, 0, 0);
    case IntegerGap(n) => ToneLevels(n); assert Surrounds(c, n, 0);
    case FloatingPointGap(n) => ToneLevels(n); assert Surrounds(c, n, 0);
    case OtherChunk => assert Surrounds(c, 0, 0);
  }

  ghost predicate Surrounds(c: Chunk, before: nat, after: nat)
    requires Framed(c)
  {
    Levels(Flat(ChunkSegments(c))) == Mark(before) + Frames8N1(ChunkText(c)) + Mark(after)
  }

  lemma ToneLevels(n: nat)
    ensures Levels(Flat(Tone(n))) == Mark(n) && Levels(Flat(Silence(n))) == Mark(n)
  {
    if n > 0 {
      OneSegment(Segment(Carrier, [], n));
      OneSegment(Segment(Gap, [], n));
    }
  }

  lemma ChunkRecorded(c: Chunk, r: Recorder)
    requires Framed(c) && r.phase == -1
    ensures var t := RecordAll(r, Levels(Flat(ChunkSegments(c))));
            t.phase == -1 && t.recorded == r.recorded + ChunkText(c)
  {
    ChunkLevels(c);
    var before, after :| Surrounds(c, before, after);
    var frames := Frames8N1(ChunkText(c));
    RecordConcat(r, Mark(before) + frames, Mark(after));
    RecordConcat(r, Mark(before), frames);
    MarkIsNotRecorded(r, Mark(before));
    FramesRecorded(ChunkText(c), r);
    MarkIsNotRecorded(RecordAll(r, frames), Mark(after));
  }

  /** A recorder that is fed every bit of a tape of tones, data and gaps has recorded exactly the tape's text. */
  lemma {:induction false} RecorderHearsTheText(chunks: seq<Chunk>)
    requires AllFramed(chunks)
    ensures var t := RecordAll(BLANK, Levels(Flat(TapeSegments(chunks)))); t.phase == -1 && t.recorded == Text(chunks)
  {
    if chunks != [] {
      var n := |chunks| - 1;
      var head, c := TapeSegments(chunks[..n]), chunks[n];
      RecorderHearsTheText(chunks[..n]);
      FlatConcat(head, ChunkSegments(c));
      LevelsConcat(Flat(head), Flat(ChunkSegments(c)));
      RecordConcat(BLANK, Levels(Flat(head)), Levels(Flat(ChunkSegments(c))));
      ChunkRecorded(c, RecordAll(BLANK, Levels(Flat(head))));
    }
  }
}
