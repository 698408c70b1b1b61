// How far the sender's bit length may be from the receiver's: framed streams as waveforms, and
// exactly which bit lengths the receiver decodes.

module BitRate {
  import opened Bits
  import opened Receiver

  /** The waveform that shows each bit for the given number of clocks. */
  function Stretch(bits: seq<bool>, clocks: nat): seq<bool> {
    if bits == [] then [] else Hold(bits[0], clocks) + Stretch(bits[1..], clocks)
  }

  lemma {:induction false} StretchConcat(a: seq<bool>, b: seq<bool>, clocks: nat)
    ensures Stretch(a + b, clocks) == Stretch(a, clocks) + Stretch(b, clocks)
  {
    if a == [] {
      assert a + b == b;
    } else {
      StretchConcat(a[1..], b, clocks);
      StretchFirst(a, b, clocks);
      Associates(Hold(a[0], clocks), Stretch(a[1..], clocks), Stretch(b, clocks));
    }
  }

  lemma StretchFirst(a: seq<bool>, b: seq<bool>, clocks: nat)
    requires a != []
    ensures Stretch(a + b, clocks) == Hold(a[0], clocks) + Stretch(a[1..] + b, clocks)
  {
    hide Hold;
    assert (a + b)[1..] == a[1..] + b;
  }

  lemma Associates<T>(a: seq<T>, b: seq<T>, c: seq<T>)
    ensures a + (b + c) == (a + b) + c
  {
  }

  lemma {:induction false} StretchAt(bits: seq<bool>, clocks: nat, i: nat, j: nat)
    requires i < |bits| && j < clocks
    ensures i * clocks + j < |Stretch(bits, clocks)|
    ensures Stretch(bits, clocks)[i * clocks + j] == bits[i]
  {
    if i > 0 {
      StretchAt(bits[1..], clocks, i - 1, j);
      assert i * clocks + j == clocks + ((i - 1) * clocks + j);
    }
  }

  lemma {:induction false} StretchLength(bits: seq<bool>, clocks: nat)
    ensures |Stretch(bits, clocks)| == |bits| * clocks
  {
    if bits != [] {
      StretchLength(bits[1..], clocks);
    }
  }

  /** The frame of a character: start bit, data bits from the lowest up, parity, one stop bit. */
  function Frame(f: Format, b: nat): seq<bool>
    requires ValidFormat(f)
  {
    seq(StopIndex(f) + 1, k requires k >= 0 => FrameBit(f, b, k))
  }

  function Stream(f: Format, text: seq<nat>): seq<bool>
    requires ValidFormat(f)
  {
    if text == [] then [] else Frame(f, text[0]) + Stream(f, text[1..])
  }

  function CleanText(f: Format, text: seq<nat>): seq<Char>
    requires ValidFormat(f)
  {
    if text == [] then [] else [Clean(f, text[0])] + CleanText(f, text[1..])
  }

  /** Every sample falls inside the bit it is meant for. */
  ghost predicate Tolerates(f: Format, clocks: nat)
    requires ValidFormat(f)
  {
    forall k: nat {:trigger SamplePoint(f, k)} | k <= StopIndex(f) ::
      k * clocks <= SamplePoint(f, k) < k * clocks + clocks
  }

  lemma StretchedBit(f: Format, b: nat, clocks: nat, k: nat, t: nat)
    requires ValidFormat(f) && k <= StopIndex(f) && k * clocks <= t < k * clocks + clocks
    ensures t < |Stretch(Frame(f, b), clocks)| && Stretch(Frame(f, b), clocks)[t] == FrameBit(f, b, k)
  {
    StretchAt(Frame(f, b), clocks, k, t - k * clocks);
  }

  lemma StretchedFrameCarries(f: Format, b: nat, clocks: nat)
    requires ValidFormat(f) && Tolerates(f, clocks)
    ensures Carries(f, b, Stretch(Frame(f, b), clocks))
  {
    var line := Stretch(Frame(f, b), clocks);
    forall k: nat | k <= StopIndex(f)
      ensures SamplePoint(f, k) < |line| && line[SamplePoint(f, k)] == FrameBit(f, b, k)
    {
      StretchedBit(f, b, clocks, k, SamplePoint(f, k));
    }
    SamplePointNext(f, 0);
    assert SamplePoint(f, 0) < 0 * clocks + clocks;
    forall t | 0 <= t < Confirm(f) ensures t < |line| && !line[t] {
      StretchedBit(f, b, clocks, 0, t);
    }
  }

  lemma StretchedFrameEnds(f: Format, b: nat, clocks: nat, t: nat)
    requires ValidFormat(f) && Tolerates(f, clocks)
    requires FrameClocks(f) <= t < |Stretch(Frame(f, b), clocks)|
    ensures Stretch(Frame(f, b), clocks)[t]
  {
    var n := StopIndex(f);
    StretchLength(Frame(f, b), clocks);
    assert n * clocks <= SamplePoint(f, n) < t;
    assert |Frame(f, b)| * clocks == n * clocks + clocks;
    StretchedBit(f, b, clocks, n, t);
  }

  /** Back-to-back frames at a tolerated bit length are received exactly, with no error flag. */
  lemma {:induction false} StreamDecodes(f: Format, rx: Rx, text: seq<nat>, clocks: nat)
    requires ValidFormat(f) && Tolerates(f, clocks) && rx.phase == RxIdle
    ensures Run(f, rx, Stretch(Stream(f, text), clocks)).chars == CleanText(f, text)
    ensures Run(f, rx, Stretch(Stream(f, text), clocks)).rx.phase == RxIdle
    decreases |text|
  {
    if text != [] {
      var first, rest := Frame(f, text[0]), Stream(f, text[1..]);
      StretchedFrameCarries(f, text[0], clocks);
      forall t | FrameClocks(f) <= t < |Stretch(first, clocks)| ensures Stretch(first, clocks)[t] {
        StretchedFrameEnds(f, text[0], clocks, t);
      }
      FrameDelivers(f, text[0], rx, Stretch(first, clocks));
      StreamDecodes(f, Run(f, rx, Stretch(first, clocks)).rx, text[1..], clocks);
      StretchConcat(first, rest, clocks);
      RunConcat(f, rx, Stretch(first, clocks), Stretch(rest, clocks));
    }
  }

  /** The receiver's own bit length is tolerated in every format. */
  lemma OwnRateIsTolerated(f: Format)
    requires ValidFormat(f)
    ensures Tolerates(f, f.divisor)
  {
    forall k: nat | k <= StopIndex(f)
      ensures k * f.divisor <= SamplePoint(f, k) < k * f.divisor + f.divisor
    {
      SamplePointNext(f, k);
    }
  }

  // ---------------------------------------------------------------- 8N1 divided by 64 and by 16

  const SLOW := Format(64, 8, NoParity)
  const FAST := Format(16, 8, NoParity)

  ghost predicate DecodesText(f: Format, rx: Rx, text: seq<byte>, clocks: nat, idle: nat)
    requires ValidFormat(f)
  {
    Run(f, rx, Sent(f, text, clocks, idle)).chars == CleanText(f, text)
  }

  /** Every stream of bytes sent at this bit length, and then left at mark, is received exactly. */
  ghost predicate DecodesEverything(f: Format, clocks: nat)
    requires ValidFormat(f)
  {
    forall rx: Rx, text: seq<byte>, idle: nat | rx.phase == RxIdle :: DecodesText(f, rx, text, clocks, idle)
  }

  function Sent(f: Format, text: seq<nat>, clocks: nat, idle: nat): seq<bool>
    requires ValidFormat(f)
  {
    Stretch(Stream(f, text), clocks) + Mark(idle)
  }

  lemma ToleratedRatesDecode(f: Format, clocks: nat)
    requires ValidFormat(f) && Tolerates(f, clocks)
    ensures DecodesEverything(f, clocks)
  {
    forall rx: Rx, text: seq<byte>, idle: nat | rx.phase == RxIdle
      ensures DecodesText(f, rx, text, clocks, idle)
    {
      var line := Stretch(Stream(f, text), clocks);
      StreamDecodes(f, rx, text, clocks);
      RunConcat(f, rx, line, Mark(idle));
      MarkIsIgnored(f, Run(f, rx, line).rx, Mark(idle));
    }
  }

  ghost predicate Plain(f: Format) {
    f.divisor in {16, 64} && f.wordLength == 8 && f.parity == NoParity
  }

  /** The first character of a waveform that starts low stays the first whatever follows. */
  lemma FirstCharacter(f: Format, rx: Rx, line: seq<bool>)
    requires ValidFormat(f) && rx.phase == RxIdle && FrameClocks(f) <= |line| && StartsLow(f, line)
    ensures |Run(f, rx, line).chars| > 0
    ensures Run(f, rx, line).chars[0] == Decoded(f, SampledLevels(f, line, StopIndex(f)))
  {
    var n := FrameClocks(f);
    CharacterDelivered(f, rx, line);
    RunConcat(f, rx, line[..n], line[n..]);
    assert line == line[..n] + line[n..];
  }

  lemma {:induction false} StretchHold(bit: bool, n: nat, clocks: nat)
    ensures Stretch(Hold(bit, n), clocks) == Hold(bit, n * clocks)
  {
    if n > 0 {
      StretchHold(bit, n - 1, clocks);
      assert Hold(bit, n)[1..] == Hold(bit, n - 1);
      assert n * clocks == clocks + (n - 1) * clocks;
    } else {
      assert Stretch([], clocks) == Hold(bit, 0);
    }
  }

  lemma ZeroFrame(f: Format, clocks: nat)
    requires Plain(f)
    ensures Stretch(Stream(f, [0]), clocks) == Hold(false, 9 * clocks) + Hold(true, clocks)
  {
    forall k: nat | k < 8 ensures !Bit(0, k) { BitOfZero(k); }
    assert Stream(f, [0]) == Frame(f, 0) == Hold(false, 9) + [true];
    StretchConcat(Hold(false, 9), [true], clocks);
    StretchHold(false, 9, clocks);
    assert Stretch([true], clocks) == Hold(true, clocks);
  }

  lemma {:induction false} BitOfZero(k: nat)
    ensures !Bit(0, k)
  {
    if k > 0 {
      BitOfZero(k - 1);
    }
  }

  /** Bits so long that the stop bit's sample still falls in a data bit: a zero byte has a framing error. */
  lemma TooSlow(f: Format, rx: Rx, clocks: nat)
    requires Plain(f) && rx.phase == RxIdle && SamplePoint(f, 9) < 9 * clocks
    ensures !DecodesText(f, rx, [0], clocks, 0)
  {
    var line := Sent(f, [0], clocks, 0);
    ZeroFrame(f, clocks);
    FirstCharacter(f, rx, line);
    SamplesPrefix(f, line, 9, 9);
    assert CleanText(f, [0])[0] == Clean(f, 0);
  }

  /** Bits so short that the last data bit is sampled after the frame: a zero byte gains its top bit. */
  lemma TooFast(f: Format, rx: Rx, clocks: nat)
    requires Plain(f) && rx.phase == RxIdle && Confirm(f) <= clocks && 9 * clocks <= SamplePoint(f, 8)
    ensures !DecodesText(f, rx, [0], clocks, FrameClocks(f))
  {
    var line := Sent(f, [0], clocks, FrameClocks(f));
    ZeroFrame(f, clocks);
    FirstCharacter(f, rx, line);
    SamplesPrefix(f, line, 8, 9);
    TopBitGathered(SampledLevels(f, line, 8));
    ZeroLow(8);
    assert CleanText(f, [0])[0] == Clean(f, 0);
  }

  lemma {:induction false} ZeroLow(n: nat)
    ensures Low(0, n) == 0
  {
    if n > 0 {
      ZeroLow(n - 1);
      BitOfZero(n - 1);
    }
  }

  lemma TopBitGathered(bits: seq<bool>)
    requires |bits| == 8 && bits[7]
    ensures Gather(bits) >= 128
  {
    GatherBound(bits[..7]);
    SetNextBit(Gather(bits[..7]), 7);
    Powers();
  }

  lemma {:induction false} GatherBound(bits: seq<bool>)
    requires |bits| <= 8
    ensures Gather(bits) < Power(|bits|)
  {
    if bits != [] {
      GatherBound(bits[..|bits| - 1]);
      SetNextBit(Gather(bits[..|bits| - 1]), |bits| - 1);
    }
  }

  lemma OnesFrame(f: Format, clocks: nat)
    requires Plain(f)
    ensures Stretch(Stream(f, [255]), clocks) == Hold(false, clocks) + Hold(true, 9 * clocks)
  {
    forall k: nat | k < 8 ensures Bit(255, k) { Powers(); OnesAreSet(255, k, 8); }
    assert Stream(f, [255]) == Frame(f, 255) == [false] + Hold(true, 9);
    StretchConcat([false], Hold(true, 9), clocks);
    StretchHold(true, 9, clocks);
    assert Stretch([false], clocks) == Hold(false, clocks);
  }

  lemma PulseThenMark(f: Format, rx: Rx, low: seq<bool>, n: nat)
    requires ValidFormat(f) && rx.phase == RxIdle && low == Hold(false, |low|) && |low| < Confirm(f)
    requires low != [] ==> n > 0
    ensures Run(f, rx, low + Hold(true, n)).chars == []
  {
    hide RxStep, Run, ValidFormat, Confirm;
    var high := Hold(true, n);
    if low == [] {
      assert low + high == high;
      MarkIsIgnored(f, rx, high);
    } else {
      FalseStartIsDeleted(f, rx, low);
      MarkIsIgnored(f, Run(f, rx, low + [true]).rx, high[1..]);
      RunConcat(f, rx, low + [true], high[1..]);
      assert low + high == (low + [true]) + high[1..];
    }
  }

  lemma SentAlone(f: Format, text: seq<nat>, clocks: nat)
    requires ValidFormat(f)
    ensures Sent(f, text, clocks, 0) == Stretch(Stream(f, text), clocks)
  {
  }

  /** Bits shorter than half the receiver's: a byte of ones is deleted as a false start. */
  lemma Deleted(f: Format, rx: Rx, clocks: nat)
    requires Plain(f) && rx.phase == RxIdle && clocks < Confirm(f)
    ensures !DecodesText(f, rx, [255], clocks, 0)
  {
    OnesFrame(f, clocks);
    SentAlone(f, [255], clocks);
    PulseThenMark(f, rx, Hold(false, clocks), 9 * clocks);
    assert CleanText(f, [255]) != [];
  }

  /** Divided by 64, a receiver decodes every stream exactly at bit lengths of 61 to 67 clocks. */
  lemma SlowReceiverTolerance(clocks: nat)
    ensures DecodesEverything(SLOW, clocks) <==> 61 <= clocks <= 67
  {
    var rx := Begin(0).(phase := RxIdle);
    if 61 <= clocks <= 67 {
      forall k: nat | k <= StopIndex(SLOW)
        ensures k * clocks <= SamplePoint(SLOW, k) < k * clocks + clocks
      {
        assert 61 * k <= k * clocks <= 67 * k;
      }
      ToleratedRatesDecode(SLOW, clocks);
    } else if clocks > 67 {
      TooSlow(SLOW, rx, clocks);
    } else if clocks >= 32 {
      TooFast(SLOW, rx, clocks);
    } else {
      Deleted(SLOW, rx, clocks);
    }
  }

  /** Divided by 16, only its own bit length decodes every stream. */
  lemma FastReceiverTolerance(clocks: nat)
    ensures DecodesEverything(FAST, clocks) <==> clocks == 16
  {
    var rx := Begin(0).(phase := RxIdle);
    if clocks == 16 {
      OwnRateIsTolerated(FAST);
      ToleratedRatesDecode(FAST, clocks);
    } else if clocks > 16 {
      TooSlow(FAST, rx, clocks);
    } else if clocks >= 8 {
      TooFast(FAST, rx, clocks);
    } else {
      Deleted(FAST, rx, clocks);
    }
  }
}
