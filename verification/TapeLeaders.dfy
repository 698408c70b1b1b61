// How much leader a tape needs: what the receiver makes, bit by bit, of data that comes before the carrier lock, and
// that a tape is read exactly if and only if every block of its data follows enough leader.

module TapeLeaders {
  import opened Bits
  import opened Receiver
  import opened BitRate
  import opened TapeStreams
  import opened TapeText
  import opened TapePlayer
  import opened TapeLoading
  import opened TapeTrails
  import opened SerialUlaSpec

  // ---------------------------------------------------------------- the receiver, a bit at a time

  /** Carrier bits in a row, and the bits of the character being received, after its start bit. */
  datatype Ear = Ear(count: nat, taken: Option<seq<bool>>)

  datatype Heard = Heard(ear: Ear, chars: seq<Char>)

  predicate Busy(e: Ear) {
    e.taken.Some?
  }

  predicate Sane(e: Ear) {
    Busy(e) ==> |e.taken.value| < 9 && CARRIER_LOCK <= e.count
  }

  function Hear(e: Ear, s: Sample): Heard {
    var count := if s.carrier then e.count + 1 else 0;
    if count < CARRIER_LOCK then Heard(Ear(count, None), [])
    else
      match e.taken
      case None => Heard(Ear(count, if s.bit then None else Some([])), [])
      case Some(t) =>
        if |t| < 8 then Heard(Ear(count, Some(t + [s.bit])), [])
        else Heard(Ear(count, None), [Char(Gather(t), !s.bit, false)])
  }

  function Listen(e: Ear, samples: seq<Sample>): Heard
    decreases |samples|
  {
    if samples == [] then Heard(e, [])
    else
      var now := Hear(e, samples[0]);
      var rest := Listen(now.ear, samples[1..]);
      Heard(rest.ear, now.chars + rest.chars)
  }

  lemma {:induction false} ListenOn(e: Ear, a: seq<Sample>, b: seq<Sample>)
    ensures var first := Listen(e, a);
            var rest := Listen(first.ear, b);
            Listen(e, a + b) == Heard(rest.ear, first.chars + rest.chars)
    decreases |a|
  {
    hide Hear;
    if a == [] {
      assert a + b == b;
    } else {
      var now := Hear(e, a[0]);
      ListenOn(now.ear, a[1..], b);
      assert (a + b)[1..] == a[1..] + b;
    }
  }

  lemma ListenOne(e: Ear, s: Sample)
    ensures Listen(e, [s]) == Hear(e, s)
  {
    hide Hear;
    assert [s][1..] == [];
    assert Listen(Hear(e, s).ear, []) == Heard(Hear(e, s).ear, []);
  }

  /** The bits of the character being received, its start bit included. */
  function Progress(e: Ear): nat {
    if Busy(e) then |e.taken.value| + 1 else 0
  }

  /** A character takes ten bits. */
  lemma {:induction false} TenBits(e: Ear, samples: seq<Sample>)
    requires Sane(e)
    ensures var h := Listen(e, samples);
            Sane(h.ear) && 10 * |h.chars| + Progress(h.ear) <= Progress(e) + |samples|
    decreases |samples|
  {
    if samples != [] {
      TenBits(Hear(e, samples[0]).ear, samples[1..]);
    }
  }

  // ---------------------------------------------------------------- tapes as marks, bytes and silence

  datatype Piece = Tick | Letter(b: byte) | Hush

  function Sound(p: Piece): seq<Sample> {
    match p
    case Tick => [Sample(true, true)]
    case Letter(b) => Carried(Frame8N1(b))
    case Hush => [Sample(true, false)]
  }

  function Spell(pieces: seq<Piece>): seq<Sample> {
    if pieces == [] then [] else Sound(pieces[0]) + Spell(pieces[1..])
  }

  function Letters(pieces: seq<Piece>): seq<byte> {
    if pieces == [] then []
    else (if pieces[0].Letter? then [pieces[0].b] else []) + Letters(pieces[1..])
  }

  function CountOn(count: nat, p: Piece): nat {
    match p
    case Tick => count + 1
    case Letter(_) => count + 10
    case Hush => 0
  }

  /** Every byte comes after 99 carrier bits or more. */
  predicate InTime(count: nat, pieces: seq<Piece>)
    decreases |pieces|
  {
    pieces == [] ||
    ((pieces[0].Letter? ==> CARRIER_LOCK <= count + 1) && InTime(CountOn(count, pieces[0]), pieces[1..]))
  }

  lemma ListenPiece(e: Ear, pieces: seq<Piece>)
    requires pieces != []
    ensures var now := Listen(e, Sound(pieces[0]));
            var rest := Listen(now.ear, Spell(pieces[1..]));
            Listen(e, Spell(pieces)) == Heard(rest.ear, now.chars + rest.chars)
  {
    hide Sound, Listen;
    ListenOn(e, Sound(pieces[0]), Spell(pieces[1..]));
  }

  function Ones(b: bool): nat {
    if b then 1 else 0
  }

  /** A piece starts at most one character, and only a byte starts one. */
  lemma PieceStarts(e: Ear, p: Piece)
    requires Sane(e)
    ensures var h := Listen(e, Sound(p));
            && Sane(h.ear) && h.ear.count == CountOn(e.count, p)
            && |h.chars| + Ones(Busy(h.ear)) <= Ones(Busy(e)) + Ones(p.Letter?)
  {
    TenBits(e, Sound(p));
    match p
    case Tick => ListenOne(e, Sample(true, true));
    case Hush => ListenOne(e, Sample(true, false));
    case Letter(b) => CarriedCount(e, Frame8N1(b));
  }

  lemma {:induction false} CarriedCount(e: Ear, bits: seq<bool>)
    ensures Listen(e, Carried(bits)).ear.count == e.count + |bits|
    decreases |bits|
  {
    if bits != [] {
      var now := Hear(e, Sample(bits[0], true));
      assert Carried(bits)[1..] == Carried(bits[1..]);
      CarriedCount(now.ear, bits[1..]);
    }
  }

  /** No more characters than bytes, and the one in progress. */
  lemma {:induction false} FewChars(e: Ear, pieces: seq<Piece>)
    requires Sane(e)
    ensures |Listen(e, Spell(pieces)).chars| <= |Letters(pieces)| + Ones(Busy(e))
    decreases |pieces|
  {
    hide Sound, Sane, Busy;
    if pieces == [] {
      Nothing(e);
    } else {
      ListenPiece(e, pieces);
      PieceStarts(e, pieces[0]);
      FewChars(Listen(e, Sound(pieces[0])).ear, pieces[1..]);
    }
  }

  lemma Nothing(e: Ear)
    ensures Listen(e, []) == Heard(e, []) && Spell([]) == []
  {
  }

  // ---------------------------------------------------------------- frames heard from the middle

  /** Level k of a byte's frame. */
  lemma FrameLevel(b: byte, k: nat)
    requires k < 10
    ensures Frame8N1(b)[k] == if k == 0 then false else if k <= 8 then Bit(b, k - 1) else true
  {
    if 1 <= k <= 8 {
      DataBitAt(b, 8, k - 1);
    }
  }

  /** Bits that do not complete the character in progress. */
  lemma {:induction false} TakesBits(e: Ear, bits: seq<bool>)
    requires Sane(e) && Busy(e) && |e.taken.value| + |bits| <= 8
    ensures Listen(e, Carried(bits)) == Heard(Ear(e.count + |bits|, Some(e.taken.value + bits)), [])
    decreases |bits|
  {
    if bits == [] {
      assert e.taken.value + bits == e.taken.value;
    } else {
      var now := Hear(e, Sample(bits[0], true)).ear;
      assert Carried(bits)[1..] == Carried(bits[1..]);
      TakesBits(now, bits[1..]);
      assert e.taken.value + [bits[0]] + bits[1..] == e.taken.value + bits;
    }
  }

  /** A character that started with a low bit within a byte's frame, after its start bit, and so many marks on. */
  predicate StartedLate(e: Ear, b: byte, at: nat, marks: nat) {
    && 1 <= at <= 8 && marks < at && !Bit(b, at - 1) && CARRIER_LOCK <= e.count
    && e.taken == Some(Frame8N1(b)[at + 1..] + Mark(marks))
  }

  /** An idle receiver within a frame and past its start bit hears nothing of it, or starts late. */
  lemma {:induction false} HearsFrom(e: Ear, b: byte, k: nat) returns (at: nat)
    requires !Busy(e) && 1 <= k <= 10 && CARRIER_LOCK <= e.count + 1
    ensures var h := Listen(e, Carried(Frame8N1(b)[k..]));
            h.chars == [] && (!Busy(h.ear) || StartedLate(h.ear, b, at, 0))
    decreases 10 - k
  {
    at := 0;
    var bits := Frame8N1(b)[k..];
    if k < 10 {
      FrameLevel(b, k);
      assert Carried(bits)[1..] == Carried(bits[1..]) && bits[1..] == Frame8N1(b)[k + 1..];
      var now := Hear(e, Sample(bits[0], true)).ear;
      hide Hear;
      if bits[0] {
        at := HearsFrom(now, b, k + 1);
      } else {
        TakesBits(now, bits[1..]);
        at := k;
        assert [] + bits[1..] == bits[1..] && Frame8N1(b)[k + 1..] + Mark(0) == bits[1..];
      }
    }
  }

  /** The part of a frame that completes the character in progress. */
  lemma Completes(e: Ear, bits: seq<bool>)
    requires Sane(e) && Busy(e) && |e.taken.value| + |bits| == 9
    ensures var word := e.taken.value + bits[..|bits| - 1];
            Listen(e, Carried(bits))
              == Heard(Ear(e.count + |bits|, None), [Char(Gather(word), !bits[|bits| - 1], false)])
  {
    var init, last := bits[..|bits| - 1], bits[|bits| - 1];
    TakesBits(e, init);
    assert Carried(bits) == Carried(init) + [Sample(last, true)];
    ListenOn(e, Carried(init), [Sample(last, true)]);
    ListenOne(Listen(e, Carried(init)).ear, Sample(last, true));
  }

  /** A frame heard from the middle of another character completes it, and is lost or starts late. */
  lemma HearsBusy(e: Ear, b: byte) returns (at: nat)
    requires Sane(e) && Busy(e)
    ensures var h := Listen(e, Sound(Letter(b)));
            |h.chars| == 1 && (!Busy(h.ear) || StartedLate(h.ear, b, at, 0))
  {
    var k, bits := 9 - |e.taken.value|, Frame8N1(b);
    assert Carried(bits) == Carried(bits[..k]) + Carried(bits[k..]) by {
      assert bits == bits[..k] + bits[k..];
    }
    ListenOn(e, Carried(bits[..k]), Carried(bits[k..]));
    Completes(e, bits[..k]);
    at := HearsFrom(Listen(e, Carried(bits[..k])).ear, b, k);
  }

  /** A character that started late and goes on in mark is not the byte: every bit of it would be one. */
  lemma LateIsAnother(e: Ear, b: byte, at: nat)
    requires 1 <= at && StartedLate(e, b, at, at - 1)
    ensures Gather(e.taken.value) != b
  {
    var t := e.taken.value;
    if Gather(t) == b {
      AllOnes(b, t, at, at - 1);
    }
  }

  lemma {:induction false} AllOnes(b: byte, t: seq<bool>, at: nat, i: nat)
    requires 1 <= at <= 8 && t == Frame8N1(b)[at + 1..] + Mark(at - 1) && Gather(t) == b && i < 8
    ensures Bit(b, i)
    decreases 8 - i
  {
    GatheredBit(t, i);
    if i + at < 8 {
      FrameLevel(b, at + 1 + i);
      AllOnes(b, t, at, i + at);
    } else if i + at == 8 {
      FrameLevel(b, 9);
    }
  }

  lemma {:induction false} GatheredBit(bits: seq<bool>, i: nat)
    requires i < |bits| <= 8
    ensures Bit(Gather(bits), i) == bits[i]
  {
    var init, n := bits[..|bits| - 1], |bits| - 1;
    GatherBound(init);
    if i < n {
      GatheredBit(init, i);
    }
    AddedBit(Gather(init), bits[n], n, i);
  }

  lemma {:induction false} SetBits(b: nat, n: nat, i: nat)
    ensures Bit(SetBit(b, n), i) == (i == n || Bit(b, i))
  {
    if n > 0 && i > 0 {
      SetBits(b / 2, n - 1, i - 1);
      assert SetBit(b, n) / 2 == SetBit(b / 2, n - 1);
    }
  }

  lemma {:induction false} ClearAbove(b: nat, n: nat)
    requires b < Power(n)
    ensures !Bit(b, n)
  {
    if n > 0 {
      ClearAbove(b / 2, n - 1);
    }
  }

  /** A bit added above all others, and no other changed. */
  lemma AddedBit(b: nat, bit: bool, n: nat, i: nat)
    requires b < Power(n) && i <= n < 8
    ensures Bit(OrBit(b, bit, n), i) == if i == n then bit else Bit(b, i)
  {
    SetBits(b, n, i);
    ClearAbove(b, n);
  }

  // ---------------------------------------------------------------- once late, never right again

  /** A mark goes on with a late character, or completes it as another. */
  lemma MarkOnLate(e: Ear, b: byte, at: nat, marks: nat)
    requires StartedLate(e, b, at, marks)
    ensures var h := Listen(e, Sound(Tick));
            if marks + 1 < at then h.chars == [] && StartedLate(h.ear, b, at, marks + 1)
            else |h.chars| == 1 && h.chars[0] != Char(b, false, false)
  {
    ListenOne(e, Sample(true, true));
    var t := e.taken.value;
    if marks + 1 < at {
      assert t + [true] == Frame8N1(b)[at + 1..] + Mark(marks + 1);
    } else {
      LateIsAnother(e, b, at);
    }
  }

  lemma Silenced(e: Ear)
    ensures Listen(e, Sound(Hush)) == Heard(Ear(0, None), [])
  {
    ListenOne(e, Sample(true, false));
  }

  lemma ReceivedFirst(b: byte, text: seq<byte>)
    ensures Received([b] + text) == [Char(b, false, false)] + Received(text) && |Received(text)| == |text|
  {
  }

  /** What follows is heard exactly, the byte whose character is in progress first. */
  predicate ExactFrom(e: Ear, b: byte, pieces: seq<Piece>) {
    Listen(e, Spell(pieces)).chars == [Char(b, false, false)] + Received(Letters(pieces))
  }

  lemma LateThenMark(e: Ear, b: byte, at: nat, marks: nat, rest: seq<Piece>)
    requires StartedLate(e, b, at, marks)
    requires marks + 1 < at ==> !ExactFrom(Listen(e, Sound(Tick)).ear, b, rest)
    ensures !ExactFrom(e, b, [Tick] + rest)
  {
    hide Listen, Sound, Received, StartedLate;
    var pieces, h := [Tick] + rest, Listen(e, Sound(Tick));
    assert pieces[1..] == rest;
    ListenPiece(e, pieces);
    assert Letters(pieces) == [] + Letters(rest);
    assert [] + Letters(rest) == Letters(rest);
    MarkOnLate(e, b, at, marks);
    var later := Listen(h.ear, Spell(rest)).chars;
    assert [] + later == later && (marks + 1 >= at ==> (h.chars + later)[0] == h.chars[0]);
  }

  lemma LateThenSilence(e: Ear, b: byte, at: nat, marks: nat, rest: seq<Piece>)
    requires StartedLate(e, b, at, marks)
    ensures !ExactFrom(e, b, [Hush] + rest)
  {
    hide Listen, Sound, Received, StartedLate;
    var pieces := [Hush] + rest;
    assert pieces[1..] == rest;
    ListenPiece(e, pieces);
    Silenced(e);
    FewChars(Ear(0, None), rest);
    assert Letters(pieces) == [] + Letters(rest);
    assert [] + Letters(rest) == Letters(rest);
    ReceivedFirst(b, Letters(rest));
  }

  lemma LateThenByte(e: Ear, b: byte, at: nat, marks: nat, b': byte, at': nat, rest: seq<Piece>)
    requires StartedLate(e, b, at, marks)
    requires var h := Listen(e, Sound(Letter(b')));
             && |h.chars| == 1 && Sane(h.ear)
             && (Busy(h.ear) ==> StartedLate(h.ear, b', at', 0) && !ExactFrom(h.ear, b', rest))
    ensures !ExactFrom(e, b, [Letter(b')] + rest)
  {
    hide Listen, Sound, Received, StartedLate;
    var pieces, h := [Letter(b')] + rest, Listen(e, Sound(Letter(b')));
    assert pieces[1..] == rest;
    ListenPiece(e, pieces);
    FewChars(h.ear, rest);
    assert Letters(pieces) == [b'] + Letters(rest);
    ReceivedFirst(b', Letters(rest));
    if Busy(h.ear) {
      SplitFirst(h.chars, Listen(h.ear, Spell(rest)).chars, Char(b, false, false), Received(Letters(pieces)));
    }
  }

  /** A tape is not read exactly from where a byte's character started late. */
  lemma {:induction false} LateIsLost(e: Ear, b: byte, at: nat, marks: nat, pieces: seq<Piece>)
    requires StartedLate(e, b, at, marks)
    ensures !ExactFrom(e, b, pieces)
    decreases |pieces|
  {
    hide Sound, StartedLate, ExactFrom, Listen;
    if pieces == [] {
      NothingIsNotExact(e, b);
    } else {
      var p, rest := pieces[0], pieces[1..];
      assert pieces == [p] + rest;
      var h := Listen(e, Sound(p));
      LateIsSane(e, b, at, marks);
      PieceStarts(e, p);
      match p
      case Tick =>
        MarkOnLate(e, b, at, marks);
        if marks + 1 < at {
          LateIsLost(h.ear, b, at, marks + 1, rest);
        }
        LateThenMark(e, b, at, marks, rest);
      case Hush =>
        LateThenSilence(e, b, at, marks, rest);
      case Letter(b') =>
        var at' := HearsBusy(e, b');
        if Busy(h.ear) {
          LateIsLost(h.ear, b', at', 0, rest);
        }
        LateThenByte(e, b, at, marks, b', at', rest);
    }
  }

  lemma NothingIsNotExact(e: Ear, b: byte)
    ensures !ExactFrom(e, b, [])
  {
  }

  lemma LateIsSane(e: Ear, b: byte, at: nat, marks: nat)
    requires StartedLate(e, b, at, marks)
    ensures Sane(e) && Busy(e)
  {
  }

  lemma SplitFirst(a: seq<Char>, b: seq<Char>, c: Char, d: seq<Char>)
    requires |a| == 1 && b != d
    ensures a + b != [c] + d
  {
    assert (a + b)[1..] == b;
    assert ([c] + d)[1..] == d;
  }

  // ---------------------------------------------------------------- the exact leader

  /** A byte whose start bit is heard by an idle receiver is received. */
  lemma HearsWhole(e: Ear, b: byte)
    requires !Busy(e) && CARRIER_LOCK <= e.count + 1
    ensures Listen(e, Sound(Letter(b))) == Heard(Ear(e.count + 10, None), [Char(b, false, false)])
  {
    var data := DataBits(b, 8);
    var tail := data + [true];
    StartBit(e);
    hide Listen, Hear, Gather, DataBits, Carried;
    assert Frame8N1(b) == [false] + tail;
    CarriedParts([false], tail);
    ListenOn(e, Carried([false]), Carried(tail));
    Completes(Ear(e.count + 1, Some([])), tail);
    assert [] + tail[..8] == data;
    DataGathers(b);
  }

  lemma CarriedParts(a: seq<bool>, b: seq<bool>)
    ensures Carried(a + b) == Carried(a) + Carried(b)
  {
  }

  lemma StartBit(e: Ear)
    requires !Busy(e) && CARRIER_LOCK <= e.count + 1
    ensures Listen(e, Carried([false])) == Heard(Ear(e.count + 1, Some([])), [])
  {
    assert Carried([false]) == [Sample(false, true)];
    ListenOne(e, Sample(false, true));
  }

  lemma DataGathers(b: byte)
    ensures Gather(DataBits(b, 8)) == b
  {
    DataIsLow(b, 8);
    WholeByte(b);
  }

  lemma {:induction false} DataIsLow(b: nat, n: nat)
    ensures Gather(DataBits(b, n)) == Low(b, n)
  {
    if n > 0 {
      DataIsLow(b, n - 1);
      assert DataBits(b, n)[..n - 1] == DataBits(b, n - 1);
    }
  }

  /** A byte whose start bit comes before the lock is missed, or its character starts late. */
  lemma HearsPart(e: Ear, b: byte) returns (at: nat)
    requires !Busy(e) && e.count + 1 < CARRIER_LOCK
    ensures var h := Listen(e, Sound(Letter(b)));
            h.chars == [] && (!Busy(h.ear) || StartedLate(h.ear, b, at, 0))
  {
    var bits := Frame8N1(b);
    var k := if CARRIER_LOCK - 1 - e.count < 10 then CARRIER_LOCK - 1 - e.count else 10;
    assert Carried(bits) == Carried(bits[..k]) + Carried(bits[k..]) by {
      assert bits == bits[..k] + bits[k..];
    }
    ListenOn(e, Carried(bits[..k]), Carried(bits[k..]));
    HearsNothing(e, bits[..k]);
    at := 0;
    if k < 10 {
      at := HearsFrom(Listen(e, Carried(bits[..k])).ear, b, k);
    }
  }

  lemma {:induction false} HearsNothing(e: Ear, bits: seq<bool>)
    requires !Busy(e) && e.count + |bits| < CARRIER_LOCK
    ensures Listen(e, Carried(bits)) == Heard(Ear(e.count + |bits|, None), [])
    decreases |bits|
  {
    if bits != [] {
      var now := Hear(e, Sample(bits[0], true)).ear;
      assert Carried(bits)[1..] == Carried(bits[1..]);
      HearsNothing(now, bits[1..]);
    }
  }

  /** What is heard exactly came in time. */
  lemma {:induction false} ExactIsInTime(e: Ear, pieces: seq<Piece>)
    requires !Busy(e) && Listen(e, Spell(pieces)).chars == Received(Letters(pieces))
    ensures InTime(e.count, pieces)
    decreases |pieces|
  {
    hide Listen, Sound, Received, StartedLate;
    if pieces != [] {
      var p, rest := pieces[0], pieces[1..];
      var h := Listen(e, Sound(p));
      ListenPiece(e, pieces);
      PieceStarts(e, p);
      FewChars(h.ear, rest);
      match p
      case Letter(b) =>
        ReceivedFirst(b, Letters(rest));
        if CARRIER_LOCK <= e.count + 1 {
          HearsWhole(e, b);
          DropFirst(Listen(h.ear, Spell(rest)).chars, Char(b, false, false), Received(Letters(rest)));
          ExactIsInTime(h.ear, rest);
        } else {
          var at := HearsPart(e, b);
          assert [] + Listen(h.ear, Spell(rest)).chars == Listen(h.ear, Spell(rest)).chars;
          if Busy(h.ear) {
            LateIsLost(h.ear, b, at, 0, rest);
          }
        }
      case _ =>
        assert h.chars == [] && !Busy(h.ear);
        assert Letters(pieces) == Letters(rest);
        assert [] + Listen(h.ear, Spell(rest)).chars == Listen(h.ear, Spell(rest)).chars;
        ExactIsInTime(h.ear, rest);
    }
  }

  lemma DropFirst(a: seq<Char>, c: Char, b: seq<Char>)
    requires [c] + a == [c] + b
    ensures a == b
  {
    assert a == ([c] + a)[1..] && b == ([c] + b)[1..];
  }

  // ---------------------------------------------------------------- chunks as pieces

  function Times(p: Piece, n: nat): seq<Piece> {
    if n == 0 then [] else Times(p, n - 1) + [p]
  }

  function Spelling(text: seq<byte>): seq<Piece> {
    if text == [] then [] else Spelling(text[..|text| - 1]) + [Letter(text[|text| - 1])]
  }

  function Pieces(c: Chunk): seq<Piece> {
    Times(Tick, Before(c)) + Spelling(ChunkText(c)) + Times(Tick, Behind(c)) + Times(Hush, Quiet(c))
  }

  function AllPieces(chunks: seq<Chunk>): seq<Piece> {
    if chunks == [] then [] else AllPieces(chunks[..|chunks| - 1]) + Pieces(chunks[|chunks| - 1])
  }

  function CountAll(count: nat, pieces: seq<Piece>): nat
    decreases |pieces|
  {
    if pieces == [] then count else CountAll(CountOn(count, pieces[0]), pieces[1..])
  }

  lemma {:induction false} SpellConcat(a: seq<Piece>, b: seq<Piece>)
    ensures Spell(a + b) == Spell(a) + Spell(b)
    decreases |a|
  {
    if a == [] {
      assert a + b == b;
    } else {
      FirstPiece(a, b);
      SpellConcat(a[1..], b);
      hide Spell, Sound;
      Associates(Sound(a[0]), Spell(a[1..]), Spell(b));
    }
  }

  lemma FirstPiece(a: seq<Piece>, b: seq<Piece>)
    requires a != []
    ensures a + b != [] && (a + b)[0] == a[0] && (a + b)[1..] == a[1..] + b
  {
  }

  lemma {:induction false} LettersConcat(a: seq<Piece>, b: seq<Piece>)
    ensures Letters(a + b) == Letters(a) + Letters(b)
    decreases |a|
  {
    if a == [] {
      assert a + b == b;
    } else {
      FirstPiece(a, b);
      LettersConcat(a[1..], b);
    }
  }

  lemma {:induction false} InTimeConcat(a: seq<Piece>, b: seq<Piece>, count: nat)
    ensures InTime(count, a + b) <==> InTime(count, a) && InTime(CountAll(count, a), b)
    ensures CountAll(count, a + b) == CountAll(CountAll(count, a), b)
    decreases |a|
  {
    if a == [] {
      assert a + b == b;
    } else {
      FirstPiece(a, b);
      InTimeConcat(a[1..], b, CountOn(count, a[0]));
    }
  }

  lemma PiecesConcat(a: seq<Piece>, b: seq<Piece>, count: nat)
    ensures Spell(a + b) == Spell(a) + Spell(b) && Letters(a + b) == Letters(a) + Letters(b)
    ensures InTime(count, a + b) <==> InTime(count, a) && InTime(CountAll(count, a), b)
    ensures CountAll(count, a + b) == CountAll(CountAll(count, a), b)
  {
    SpellConcat(a, b);
    LettersConcat(a, b);
    InTimeConcat(a, b, count);
  }

  lemma OnePiece(p: Piece, count: nat)
    ensures Spell([p]) == Sound(p) && Letters([p]) == (if p.Letter? then [p.b] else [])
    ensures CountAll(count, [p]) == CountOn(count, p)
    ensures InTime(count, [p]) <==> (p.Letter? ==> CARRIER_LOCK <= count + 1)
  {
    assert [p][1..] == [];
  }

  lemma {:induction false} Ticks(n: nat, count: nat)
    ensures Spell(Times(Tick, n)) == Carried(Mark(n)) && Letters(Times(Tick, n)) == []
    ensures InTime(count, Times(Tick, n)) && CountAll(count, Times(Tick, n)) == count + n
  {
    if n > 0 {
      Ticks(n - 1, count);
      PiecesConcat(Times(Tick, n - 1), [Tick], count);
      OnePiece(Tick, count + n - 1);
    }
  }

  lemma {:induction false} Hushes(n: nat, count: nat)
    ensures Spell(Times(Hush, n)) == Silent(n) && Letters(Times(Hush, n)) == []
    ensures InTime(count, Times(Hush, n)) && CountAll(count, Times(Hush, n)) == if n == 0 then count else 0
  {
    if n > 0 {
      Hushes(n - 1, count);
      PiecesConcat(Times(Hush, n - 1), [Hush], count);
      OnePiece(Hush, if n == 1 then count else 0);
    }
  }

  /** What pieces spell and say, whether they come in time after so many carrier bits, and how many there are then. */
  predicate Says(pieces: seq<Piece>, count: nat, samples: seq<Sample>, text: seq<byte>, inTime: bool, after: nat) {
    && Spell(pieces) == samples && Letters(pieces) == text
    && InTime(count, pieces) == inTime && CountAll(count, pieces) == after
  }

  lemma SayBoth(a: seq<Piece>, b: seq<Piece>, count: nat, s: seq<Sample>, t: seq<byte>, inTime: bool, mid: nat,
                s': seq<Sample>, t': seq<byte>, inTime': bool, after: nat)
    requires Says(a, count, s, t, inTime, mid) && Says(b, mid, s', t', inTime', after)
    ensures Says(a + b, count, s + s', t + t', inTime && inTime', after)
  {
    hide Spell, Letters, InTime, CountAll;
    PiecesConcat(a, b, count);
  }

  lemma LetterSays(b: byte, count: nat)
    ensures Says([Letter(b)], count, Carried(Frame8N1(b)), [b], CARRIER_LOCK <= count + 1, count + 10)
  {
    hide Spell, Letters, InTime, CountAll, Carried, Frame8N1;
    OnePiece(Letter(b), count);
  }

  lemma OneLetterMore(text: seq<byte>)
    requires text != []
    ensures var init, b := text[..|text| - 1], text[|text| - 1];
            && Frames8N1(text) == Frames8N1(init) + Frame8N1(b) && Spelling(text) == Spelling(init) + [Letter(b)]
            && text == init + [b]
  {
    hide Frame8N1;
  }

  lemma NoLettersSay(count: nat)
    ensures Says(Spelling([]), count, Carried(Frames8N1([])), [], true, count)
  {
    NoFrames();
  }

  lemma {:induction false} Spelled(text: seq<byte>, count: nat)
    ensures Says(Spelling(text), count, Carried(Frames8N1(text)), text, text != [] ==> CARRIER_LOCK <= count + 1,
                 count + 10 * |text|)
  {
    hide Frame8N1, Frames8N1, Spelling, Says, Carried;
    if text == [] {
      NoLettersSay(count);
    } else {
      var init, b := text[..|text| - 1], text[|text| - 1];
      Spelled(init, count);
      LetterSays(b, count + 10 * |init|);
      SayBoth(Spelling(init), [Letter(b)], count, Carried(Frames8N1(init)), init,
              init != [] ==> CARRIER_LOCK <= count + 1, count + 10 * |init|,
              Carried(Frame8N1(b)), [b], CARRIER_LOCK <= count + 10 * |init| + 1, count + 10 * |text|);
      CarriedParts(Frames8N1(init), Frame8N1(b));
      OneLetterMore(text);
    }
  }

  lemma TicksSay(n: nat, count: nat)
    ensures Says(Times(Tick, n), count, Carried(Mark(n)), [], true, count + n)
  {
    Ticks(n, count);
  }

  lemma HushesSay(n: nat, count: nat)
    ensures Says(Times(Hush, n), count, Silent(n), [], true, if n == 0 then count else 0)
  {
    Hushes(n, count);
  }

  lemma MarksAndText(n: nat, text: seq<byte>, count: nat)
    ensures Says(Times(Tick, n) + Spelling(text), count, Carried(Mark(n)) + Carried(Frames8N1(text)), text,
                 text != [] ==> CARRIER_LOCK <= count + n + 1, count + n + 10 * |text|)
  {
    hide Says, Carried, Frames8N1, Spelling, Times;
    var none: seq<byte> := [];
    TicksSay(n, count);
    Spelled(text, count + n);
    SayBoth(Times(Tick, n), Spelling(text), count, Carried(Mark(n)), none, true, count + n, Carried(Frames8N1(text)),
            text, text != [] ==> CARRIER_LOCK <= count + n + 1, count + n + 10 * |text|);
    assert none + text == text;
  }

  lemma MarksAndSilence(n: nat, quiet: nat, count: nat)
    ensures Says(Times(Tick, n) + Times(Hush, quiet), count, Carried(Mark(n)) + Silent(quiet), [], true,
                 if quiet == 0 then count + n else 0)
  {
    hide Says, Carried, Silent, Times;
    var none: seq<byte> := [];
    TicksSay(n, count);
    HushesSay(quiet, count + n);
    SayBoth(Times(Tick, n), Times(Hush, quiet), count, Carried(Mark(n)), none, true, count + n, Silent(quiet), none,
            true, if quiet == 0 then count + n else 0);
    assert none + none == none;
  }

  /** The four parts of a chunk, two and two. */
  lemma TwoAndTwo<T>(a: seq<T>, b: seq<T>, c: seq<T>, d: seq<T>)
    ensures a + b + c + d == (a + b) + (c + d)
  {
  }

  lemma ChunkParts(c: Chunk)
    requires Framed(c)
    ensures Pieces(c) == (Times(Tick, Before(c)) + Spelling(ChunkText(c)))
                         + (Times(Tick, Behind(c)) + Times(Hush, Quiet(c)))
    ensures Layout(c) == (Carried(Mark(Before(c))) + Carried(Frames8N1(ChunkText(c))))
                         + (Carried(Mark(Behind(c))) + Silent(Quiet(c)))
  {
    hide Carried, Frames8N1, Spelling, Times, Silent, Mark, Before, Behind, Quiet, ChunkText;
    TwoAndTwo(Times(Tick, Before(c)), Spelling(ChunkText(c)), Times(Tick, Behind(c)), Times(Hush, Quiet(c)));
    TwoAndTwo(Carried(Mark(Before(c))), Carried(Frames8N1(ChunkText(c))), Carried(Mark(Behind(c))), Silent(Quiet(c)));
  }

  lemma LedAndAfter(c: Chunk, count: nat)
    requires Framed(c)
    ensures var mid := count + Before(c) + 10 * |ChunkText(c)|;
            && Led(count, c) == (ChunkText(c) != [] ==> CARRIER_LOCK <= count + Before(c) + 1)
            && LeadAfter(count, c) == if Quiet(c) == 0 then mid + Behind(c) else 0
  {
  }

  lemma ChunkPieces(c: Chunk, count: nat)
    requires Framed(c)
    ensures Says(Pieces(c), count, Layout(c), ChunkText(c), Led(count, c), LeadAfter(count, c))
  {
    hide Says, Carried, Frames8N1, Spelling, Times, Silent, Mark, Layout, Pieces, Led, LeadAfter, Before, Behind, Quiet,
      ChunkText;
    var n, text, m, quiet := Before(c), ChunkText(c), Behind(c), Quiet(c);
    var mid := count + n + 10 * |text|;
    var none: seq<byte> := [];
    MarksAndText(n, text, count);
    MarksAndSilence(m, quiet, mid);
    SayBoth(Times(Tick, n) + Spelling(text), Times(Tick, m) + Times(Hush, quiet), count,
            Carried(Mark(n)) + Carried(Frames8N1(text)), text, text != [] ==> CARRIER_LOCK <= count + n + 1, mid,
            Carried(Mark(m)) + Silent(quiet), none, true, if quiet == 0 then mid + m else 0);
    assert text + none == text;
    ChunkParts(c);
    LedAndAfter(c, count);
  }

  lemma {:induction false} ChunksArePieces(chunks: seq<Chunk>)
    requires AllFramed(chunks)
    ensures Says(AllPieces(chunks), 0, Flat(TapeSegments(chunks)), Text(chunks), AllLed(chunks), Lead(chunks))
  {
    hide Says, Pieces, Flat, Layout, Led, LeadAfter, ChunkText, ChunkSegments;
    if chunks == [] {
      NoPieces();
      NoSamples();
    } else {
      var init, c := chunks[..|chunks| - 1], chunks[|chunks| - 1];
      ChunksArePieces(init);
      ChunkPieces(c, Lead(init));
      SayBoth(AllPieces(init), Pieces(c), 0, Flat(TapeSegments(init)), Text(init), AllLed(init), Lead(init),
              Layout(c), ChunkText(c), Led(Lead(init), c), LeadAfter(Lead(init), c));
      OneChunkMore(init, c);
      assert init + [c] == chunks;
    }
  }

  lemma NoPieces()
    ensures Says([], 0, [], [], true, 0)
  {
  }

  // ---------------------------------------------------------------- the player as an ear

  /** The player between two bits is where the ear is. */
  ghost predicate Matches(f: Format, samples: seq<Sample>, p: Player, e: Ear) {
    && AtBoundary(f, p) && p.count == e.count && p.count <= p.at <= |samples| <= 0xffff_ffff
    && if Busy(e) then Takes(f, p.rx, e.taken.value) && CARRIER_LOCK <= e.count else p.rx.phase == RxIdle
  }

  /** A whole bit, heard by an idle receiver or by a busy one. */
  lemma WholeBit(f: Format, rx: Rx, taken: Option<seq<bool>>, bit: bool)
    requires Is8N1(f) && if taken.Some? then Takes(f, rx, taken.value) else rx.phase == RxIdle
    requires Unbroken(Run(f, rx, Hold(bit, f.divisor)).chars)
    ensures var o, h := Run(f, rx, Hold(bit, f.divisor)), Hear(Ear(CARRIER_LOCK, taken), Sample(bit, true));
            && o.chars == h.chars
            && if Busy(h.ear) then Takes(f, o.rx, h.ear.taken.value) else o.rx.phase == RxIdle
  {
    hide Run, Midway, Holding;
    var d := f.divisor;
    if taken.None? {
      if bit {
        MarkIsIgnored(f, rx, Hold(true, d));
      } else {
        IdleLow(f, rx, d);
      }
    } else {
      BusyBit(f, taken.value, bit);
    }
  }

  lemma BusyBit(f: Format, t: seq<bool>, bit: bool)
    requires Is8N1(f) && |t| < 9 && Unbroken(Run(f, Midway(f, t), Hold(bit, f.divisor)).chars)
    ensures var o := Run(f, Midway(f, t), Hold(bit, f.divisor));
            if |t| < 8 then o == Outcome(Midway(f, t + [bit]), [])
            else o.chars == [Char(Gather(t), !bit, false)] && o.rx.phase == RxIdle
  {
    hide Run, Holding, Confirm, Is8N1;
    var c, d, rx := Confirm(f), f.divisor, Midway(f, t);
    ConfirmWithin(f);
    ToSample(f, t, bit);
    HoldSplits(bit, c, d);
    RunConcat(f, rx, Hold(bit, c), Hold(bit, d - c));
    if |t| < 8 {
      WaitsFrom(f, t + [bit], 0, bit, d - c);
    } else {
      var o := Run(f, rx, Hold(bit, c));
      assert o.chars[0] in o.chars + Run(f, o.rx, Hold(bit, d - c)).chars;
      MarkIsIgnored(f, o.rx, Hold(bit, d - c));
    }
  }

  lemma Steps(f: Format, samples: seq<Sample>, p: Player, e: Ear)
    requires Is8N1(f) && Matches(f, samples, p, e) && Unbroken(Play(f, samples, p, f.divisor).chars)
    ensures var r, h := Play(f, samples, p, f.divisor), Hear(e, Under(samples, p.at));
            && r.chars == h.chars && Matches(f, samples, r.player, h.ear)
            && r.player.at == if p.at < |samples| then p.at + 1 else p.at
  {
    hide Play, Run, Midway;
    var q, s := Fetch(samples, p), Under(samples, p.at);
    PlaysBitPeriod(f, samples, p);
    if q.present {
      WholeBit(f, q.rx, e.taken, q.bit);
      CountIsIdle(e, s);
    }
  }

  /** Past the lock it is all one how many carrier bits there have been. */
  lemma CountIsIdle(e: Ear, s: Sample)
    requires s.carrier && CARRIER_LOCK <= e.count + 1
    ensures var h, h' := Hear(e, s), Hear(Ear(CARRIER_LOCK, e.taken), Sample(s.bit, true));
            h.chars == h'.chars && h.ear == Ear(e.count + 1, h'.ear.taken)
  {
  }

  /** The samples that so many bits of playing pass under the head. */
  function Passed(samples: seq<Sample>, n: nat): seq<Sample> {
    seq(n, i requires 0 <= i => Under(samples, i))
  }

  lemma {:induction false} EarFollows(f: Format, samples: seq<Sample>, p: Player, n: nat)
    requires Is8N1(f) && AtBoundary(f, p) && p.rx.phase == RxIdle && p.at == 0 && p.count == 0
    requires |samples| <= 0xffff_ffff && Unbroken(PlayBits(f, samples, p, n).chars)
    ensures var r, h := PlayBits(f, samples, p, n), Listen(Ear(0, None), Passed(samples, n));
            && r.chars == h.chars && Matches(f, samples, r.player, h.ear)
            && r.player.at == if n < |samples| then n else |samples|
  {
    hide Play, Hear, AtBoundary;
    var e := Ear(0, None);
    if n == 0 {
      Nothing(e);
    } else {
      var before := PlayBits(f, samples, p, n - 1);
      var now := Play(f, samples, before.player, f.divisor);
      BrokenEarlier(before.chars, now.chars);
      EarFollows(f, samples, p, n - 1);
      var h := Listen(e, Passed(samples, n - 1));
      Steps(f, samples, before.player, h.ear);
      assert Under(samples, before.player.at) == Under(samples, n - 1);
      assert Passed(samples, n) == Passed(samples, n - 1) + [Under(samples, n - 1)];
      ListenOn(e, Passed(samples, n - 1), [Under(samples, n - 1)]);
      ListenOne(h.ear, Under(samples, n - 1));
    }
  }

  lemma BrokenEarlier(a: seq<Char>, b: seq<Char>)
    requires Unbroken(a + b)
    ensures Unbroken(a) && Unbroken(b)
  {
    forall c | c in a ensures !c.framingError {
      assert c in a + b;
    }
    LaterUnbroken(a, b);
  }

  // ---------------------------------------------------------------- the exact leader

  /**
   * Any tape of tones, framed data and gaps, once it has been played: what has been received is exactly its text if
   * and only if every block of data follows a leader of at least 99 bits.
   */
  lemma TapeIsReadExactly(f: Format, chunks: seq<Chunk>, p: Player, n: nat)
    requires Is8N1(f) && AllFramed(chunks) && |Flat(TapeSegments(chunks))| <= 0xffff_ffff
    requires AtBoundary(f, p) && p.rx.phase == RxIdle && p.at == 0 && p.count == 0
    requires |Flat(TapeSegments(chunks))| <= n
    ensures PlayBits(f, Flat(TapeSegments(chunks)), p, n).chars == Received(Text(chunks)) <==> AllLed(chunks)
  {
    hide PlayBits, Flat, AllLed, AtBoundary, Text;
    if AllLed(chunks) {
      BitsDeliver(f, chunks, p, n);
    } else {
      OnlyLedIsExact(f, chunks, p, n);
    }
  }

  lemma OnlyLedIsExact(f: Format, chunks: seq<Chunk>, p: Player, n: nat)
    requires Is8N1(f) && AllFramed(chunks) && |Flat(TapeSegments(chunks))| <= 0xffff_ffff
    requires AtBoundary(f, p) && p.rx.phase == RxIdle && p.at == 0 && p.count == 0
    requires |Flat(TapeSegments(chunks))| <= n
    ensures PlayBits(f, Flat(TapeSegments(chunks)), p, n).chars == Received(Text(chunks)) ==> AllLed(chunks)
  {
    hide PlayBits, Flat, AllLed, AtBoundary, Text, Listen, Spell, Letters, InTime, CountAll, Received, TapeSegments;
    var samples, text := Flat(TapeSegments(chunks)), Text(chunks);
    var more := n - |samples|;
    if PlayBits(f, samples, p, n).chars == Received(text) {
      ReceivedUnbroken(Received(text), text);
      EarFollows(f, samples, p, n);
      ChunksArePieces(chunks);
      HushesSay(more, Lead(chunks));
      PiecesConcat(AllPieces(chunks), Times(Hush, more), 0);
      assert Passed(samples, n) == samples + Silent(more);
      assert text + [] == text;
      ExactIsInTime(Ear(0, None), AllPieces(chunks) + Times(Hush, more));
    }
  }
}
