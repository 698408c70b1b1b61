// The receiving half of the ACIA as a machine of its own: what `rx_clock` does to the shift
// registers and counters, and what any line waveform makes it deliver.

module Receiver {
  import opened Bits

  datatype Parity = NoParity | Odd | Even

  datatype Format = Format(divisor: nat, wordLength: nat, parity: Parity)

  datatype Phase = RxIdle | RxStart | RxData | RxParity | RxStop

  datatype Rx = Rx(phase: Phase, shift: nat, shiftCount: nat, clocks: nat, parityCalc: bool, parityError: bool)

  /** A character as it would be moved to the receive data register. */
  datatype Char = Char(value: nat, framingError: bool, parityError: bool)

  datatype Step = Step(rx: Rx, got: Option<Char>)

  ghost predicate ValidFormat(f: Format) {
    f.divisor in {1, 16, 64} && f.wordLength in {7, 8}
  }

  /** The state in which the first data bit is awaited. */
  function Begin(clocks: nat): Rx {
    Rx(RxData, 0, 0, clocks, false, false)
  }

  function DataBit(f: Format, rx: Rx, line: bool): Rx {
    var shift := OrBit(rx.shift, line, rx.shiftCount);
    var ones := if f.parity != NoParity then rx.parityCalc != line else rx.parityCalc;
    var count := Inc8(rx.shiftCount);
    var next := rx.(shift := shift, parityCalc := ones, shiftCount := count);
    if count == f.wordLength then
      next.(clocks := 0, phase := if f.parity != NoParity then RxParity else RxStop)
    else
      next
  }

  function ParityBit(f: Format, rx: Rx, line: bool): Rx {
    var expected := if f.parity == Odd then !rx.parityCalc else rx.parityCalc;
    rx.(parityError := line != expected, clocks := 0, phase := RxStop)
  }

  function StopBit(f: Format, rx: Rx, line: bool): Step {
    Step(rx.(phase := RxIdle), Some(Char(rx.shift, !line, f.parity != NoParity && rx.parityError)))
  }

  /** One receiver clock with the line at the given level. */
  function RxStep(f: Format, rx: Rx, line: bool): Step {
    var count := Inc8(rx.clocks);
    match rx.phase
    case RxIdle =>
      if line then Step(rx, None)
      else if f.divisor == 1 then Step(Begin(1), None)
      else Step(rx.(clocks := 1, phase := RxStart), None)
    case RxStart =>
      if line then Step(rx.(clocks := count, phase := RxIdle), None)
      else if count >= f.divisor / 2 then Step(Begin(0), None)
      else Step(rx.(clocks := count), None)
    case RxData =>
      if f.divisor == 1 then Step(DataBit(f, rx, line), None)
      else if count >= f.divisor then Step(DataBit(f, rx.(clocks := 0), line), None)
      else Step(rx.(clocks := count), None)
    case RxParity =>
      if f.divisor == 1 then Step(ParityBit(f, rx, line), None)
      else if count >= f.divisor then Step(ParityBit(f, rx.(clocks := 0), line), None)
      else Step(rx.(clocks := count), None)
    case RxStop =>
      if f.divisor == 1 then StopBit(f, rx, line)
      else if count >= f.divisor then StopBit(f, rx.(clocks := 0), line)
      else Step(rx.(clocks := count), None)
  }

  // ---------------------------------------------------------------- whole waveforms

  datatype Outcome = Outcome(rx: Rx, chars: seq<Char>)

  function Emit(got: Option<Char>): seq<Char> {
    if got.Some? then [got.value] else []
  }

  /** The receiver after a waveform (one line level a clock), and the characters it delivered. */
  function Run(f: Format, rx: Rx, line: seq<bool>): Outcome {
    if line == [] then Outcome(rx, []) else
      var before := Run(f, rx, line[..|line| - 1]);
      var step := RxStep(f, before.rx, line[|line| - 1]);
      Outcome(step.rx, before.chars + Emit(step.got))
  }

  lemma {:induction false} RunConcat(f: Format, rx: Rx, a: seq<bool>, b: seq<bool>)
    ensures Run(f, rx, a + b).rx == Run(f, Run(f, rx, a).rx, b).rx
    ensures Run(f, rx, a + b).chars == Run(f, rx, a).chars + Run(f, Run(f, rx, a).rx, b).chars
  {
    if b == [] {
      assert a + b == a;
    } else {
      var b' := b[..|b| - 1];
      assert (a + b)[..|a + b| - 1] == a + b';
      RunConcat(f, rx, a, b');
    }
  }

  lemma RunAfter(f: Format, rx: Rx, a: seq<bool>, b: seq<bool>, mid: Rx)
    requires Run(f, rx, a) == Outcome(mid, [])
    ensures Run(f, rx, a + b) == Run(f, mid, b)
  {
    RunConcat(f, rx, a, b);
  }

  lemma {:induction false} RunOne(f: Format, rx: Rx, line: seq<bool>, next: bool)
    ensures var before := Run(f, rx, line);
            var step := RxStep(f, before.rx, next);
            Run(f, rx, line + [next]) == Outcome(step.rx, before.chars + Emit(step.got))
  {
    assert (line + [next])[..|line|] == line;
  }

  /** An idle receiver ignores a line at mark. */
  lemma {:induction false} MarkIsIgnored(f: Format, rx: Rx, line: seq<bool>)
    requires rx.phase == RxIdle
    requires forall i | 0 <= i < |line| :: line[i]
    ensures Run(f, rx, line) == Outcome(rx, [])
  {
    if line != [] {
      MarkIsIgnored(f, rx, line[..|line| - 1]);
    }
  }

  // ---------------------------------------------------------------- one character

  /** Samples taken after the start bit: the word, its parity bit if any, and the stop bit. */
  function StopIndex(f: Format): nat {
    f.wordLength + (if f.parity != NoParity then 2 else 1)
  }

  /** Clocks from the start edge to the confirmation of the start bit, the edge itself included. */
  function Confirm(f: Format): nat {
    if f.divisor == 1 then 1 else f.divisor / 2
  }

  /** The clock, counted from 0 at the start edge, at which sample k is taken; k = 0 confirms the start bit. */
  function SamplePoint(f: Format, k: nat): nat
    requires ValidFormat(f)
  {
    if f.divisor == 1 then k else if f.divisor == 16 then 7 + 16 * k else 31 + 64 * k
  }

  lemma SamplePointNext(f: Format, k: nat)
    requires ValidFormat(f)
    ensures SamplePoint(f, 0) + 1 == Confirm(f)
    ensures f.divisor * k + Confirm(f) == SamplePoint(f, k) + 1
    ensures SamplePoint(f, k + 1) == SamplePoint(f, k) + f.divisor
  {
  }

  /** Clocks from a start edge to the delivery of the character. */
  function FrameClocks(f: Format): nat
    requires ValidFormat(f)
  {
    SamplePoint(f, StopIndex(f)) + 1
  }

  /** The number whose binary digits, lowest first, are the given levels. */
  function Gather(bits: seq<bool>): nat {
    if bits == [] then 0 else OrBit(Gather(bits[..|bits| - 1]), bits[|bits| - 1], |bits| - 1)
  }

  predicate OddOnesIn(bits: seq<bool>) {
    if bits == [] then false else OddOnesIn(bits[..|bits| - 1]) != bits[|bits| - 1]
  }

  /** Whether a parity level disagrees with the word before it. */
  predicate WrongParity(f: Format, word: seq<bool>, level: bool) {
    f.parity != NoParity && level != (OddOnesIn(word) != (f.parity == Odd))
  }

  /** The character that a full set of samples stands for. */
  function Decoded(f: Format, samples: seq<bool>): Char
    requires |samples| == StopIndex(f)
  {
    var word := samples[..f.wordLength];
    Char(Gather(word), !samples[StopIndex(f) - 1], WrongParity(f, word, samples[f.wordLength]))
  }

  /** The receiver after a confirmed start bit and the given samples, m clocks after the last of them. */
  function Holding(f: Format, taken: seq<bool>, m: nat): Rx {
    if |taken| < f.wordLength then
      Rx(RxData, Gather(taken), |taken|, if f.divisor == 1 then 1 else m,
         f.parity != NoParity && OddOnesIn(taken), false)
    else
      var word := taken[..f.wordLength];
      var needsParity := |taken| == f.wordLength && f.parity != NoParity;
      Rx(if needsParity then RxParity else RxStop, Gather(word), f.wordLength,
         if f.divisor == 1 then 0 else m, f.parity != NoParity && OddOnesIn(word),
         !needsParity && f.parity != NoParity && WrongParity(f, word, taken[f.wordLength]))
  }

  /** Between two samples the line is not looked at. */
  lemma Wait(f: Format, taken: seq<bool>, m: nat, line: bool)
    requires ValidFormat(f) && |taken| < StopIndex(f) && m + 1 < f.divisor
    ensures RxStep(f, Holding(f, taken, m), line) == Step(Holding(f, taken, m + 1), None)
  {
  }

  /** Any sample before the stop bit's is added to those taken. */
  lemma TakesSample(f: Format, taken: seq<bool>, m: nat, level: bool)
    requires ValidFormat(f) && |taken| + 1 < StopIndex(f) && m + 1 == f.divisor
    ensures RxStep(f, Holding(f, taken, m), level) == Step(Holding(f, taken + [level], 0), None)
  {
    assert (taken + [level])[..|taken|] == taken;
    if |taken| + 1 >= f.wordLength {
      assert (taken + [level])[..f.wordLength] ==
             if |taken| < f.wordLength then taken + [level] else taken[..f.wordLength];
    }
  }

  /** The stop bit's sample delivers the character, with a framing error exactly if it is low. */
  lemma SampleStop(f: Format, taken: seq<bool>, m: nat, level: bool)
    requires ValidFormat(f) && |taken| + 1 == StopIndex(f) && m + 1 == f.divisor
    ensures var step := RxStep(f, Holding(f, taken, m), level);
            step.got == Some(Decoded(f, taken + [level])) && step.rx.phase == RxIdle
  {
    assert (taken + [level])[..f.wordLength] == taken[..f.wordLength];
  }

  /** Confirming the start bit: a line held low for half a bit. */
  lemma {:induction false} StartConfirmed(f: Format, rx: Rx, line: seq<bool>)
    requires ValidFormat(f) && rx.phase == RxIdle
    requires 0 < |line| <= Confirm(f)
    requires forall t | 0 <= t < |line| :: !line[t]
    ensures Run(f, rx, line).chars == []
    ensures Run(f, rx, line).rx ==
            if |line| == Confirm(f) then Holding(f, [], 0) else rx.(phase := RxStart, clocks := |line|)
  {
    if |line| == 1 {
      assert Run(f, rx, line[..0]) == Outcome(rx, []);
    } else {
      StartConfirmed(f, rx, line[..|line| - 1]);
    }
  }

  /** Clocks after a sample, whatever the line does in between. */
  lemma {:induction false} Waiting(f: Format, taken: seq<bool>, line: seq<bool>)
    requires ValidFormat(f) && |taken| < StopIndex(f) && |line| < f.divisor
    ensures Run(f, Holding(f, taken, 0), line) == Outcome(Holding(f, taken, |line|), [])
  {
    if line != [] {
      Waiting(f, taken, line[..|line| - 1]);
      Wait(f, taken, |line| - 1, line[|line| - 1]);
    }
  }

  /** From one sample to the next: a bit's length of line. */
  lemma NextSample(f: Format, taken: seq<bool>, gap: seq<bool>, level: bool)
    requires ValidFormat(f) && |taken| < StopIndex(f) && |gap| + 1 == f.divisor
    ensures var r := Run(f, Holding(f, taken, 0), gap + [level]);
            if |taken| + 1 < StopIndex(f) then r == Outcome(Holding(f, taken + [level], 0), [])
            else r.chars == [Decoded(f, taken + [level])] && r.rx.phase == RxIdle
  {
    Waiting(f, taken, gap);
    RunOne(f, Holding(f, taken, 0), gap, level);
    if |taken| + 1 < StopIndex(f) {
      TakesSample(f, taken, |gap|, level);
    } else {
      SampleStop(f, taken, |gap|, level);
    }
  }

  /** The levels that the receiver looks at: samples 1 to k of a waveform. */
  function SampledLevels(f: Format, line: seq<bool>, k: nat): (s: seq<bool>)
    requires ValidFormat(f) && SamplePoint(f, k) < |line|
    ensures |s| == k
  {
    if k == 0 then [] else SampledLevels(f, line, k - 1) + [line[SamplePoint(f, k)]]
  }

  /** A start edge followed by half a bit at space. */
  ghost predicate StartsLow(f: Format, line: seq<bool>) {
    forall t | 0 <= t < Confirm(f) && t < |line| :: !line[t]
  }

  /** One more sample of a waveform, a bit's length after the previous one. */
  lemma Advance(f: Format, rx: Rx, line: seq<bool>, from: nat, taken: seq<bool>)
    requires ValidFormat(f) && |taken| < StopIndex(f) && from + f.divisor <= |line|
    requires Run(f, rx, line[..from]) == Outcome(Holding(f, taken, 0), [])
    ensures var level := line[from + f.divisor - 1];
            var r := Run(f, rx, line[..from + f.divisor]);
            if |taken| + 1 < StopIndex(f) then r == Outcome(Holding(f, taken + [level], 0), [])
            else r.chars == [Decoded(f, taken + [level])] && r.rx.phase == RxIdle
  {
    var to := from + f.divisor - 1;
    RunPiece(f, rx, line, from, to, Holding(f, taken, 0));
    NextSample(f, taken, line[from..to], line[to]);
  }

  /** The receiver up to and including sample k of any waveform that starts low for half a bit. */
  ghost predicate SampledTo(f: Format, rx: Rx, line: seq<bool>, k: nat)
    requires ValidFormat(f)
  {
    SamplePoint(f, k) < |line| &&
    Run(f, rx, line[..SamplePoint(f, k) + 1]) == Outcome(Holding(f, SampledLevels(f, line, k), 0), [])
  }

  lemma {:induction false} Sampled(f: Format, rx: Rx, line: seq<bool>, k: nat)
    requires ValidFormat(f) && rx.phase == RxIdle && k < StopIndex(f) && FrameClocks(f) <= |line|
    requires StartsLow(f, line)
    ensures SampledTo(f, rx, line, k)
    decreases k
  {
    if k == 0 {
      FirstSampled(f, rx, line);
    } else {
      Sampled(f, rx, line, k - 1);
      NextSampled(f, rx, line, k);
    }
  }

  lemma NextSampled(f: Format, rx: Rx, line: seq<bool>, k: nat)
    requires ValidFormat(f) && 1 <= k < StopIndex(f) && FrameClocks(f) <= |line|
    requires SampledTo(f, rx, line, k - 1)
    ensures SampledTo(f, rx, line, k)
  {
    hide Run, Holding;
    SamplePointNext(f, k - 1);
    Extend(f, rx, line, k, SamplePoint(f, k - 1) + 1, SampledLevels(f, line, k - 1));
  }

  lemma Extend(f: Format, rx: Rx, line: seq<bool>, k: nat, from: nat, taken: seq<bool>)
    requires ValidFormat(f) && 1 <= k < StopIndex(f) && SamplePoint(f, k) < |line|
    requires SamplePoint(f, k) == from + f.divisor - 1
    requires SamplePoint(f, k - 1) < |line| && taken == SampledLevels(f, line, k - 1)
    requires Run(f, rx, line[..from]) == Outcome(Holding(f, taken, 0), [])
    ensures Run(f, rx, line[..SamplePoint(f, k) + 1]) == Outcome(Holding(f, SampledLevels(f, line, k), 0), [])
  {
    Advance(f, rx, line, from, taken);
  }

  lemma FirstSampled(f: Format, rx: Rx, line: seq<bool>)
    requires ValidFormat(f) && rx.phase == RxIdle && SamplePoint(f, 0) < |line|
    requires StartsLow(f, line)
    ensures SampledTo(f, rx, line, 0)
  {
    SamplePointNext(f, 0);
    StartConfirmed(f, rx, line[..Confirm(f)]);
  }

  lemma RunPiece(f: Format, rx: Rx, line: seq<bool>, from: nat, to: nat, mid: Rx)
    requires from <= to < |line| && Run(f, rx, line[..from]) == Outcome(mid, [])
    ensures Run(f, rx, line[..to + 1]) == Run(f, mid, line[from..to] + [line[to]])
  {
    Split(line, from, to + 1);
    RunAfter(f, rx, line[..from], line[from..to + 1], mid);
  }

  lemma Split<T>(s: seq<T>, from: nat, to: nat)
    requires from < to <= |s|
    ensures s[..to] == s[..from] + s[from..to]
    ensures s[from..to] == s[from..to - 1] + [s[to - 1]]
  {
  }

  /** Any waveform that starts low for half a bit delivers exactly what its sample points show, when it says. */
  lemma CharacterDelivered(f: Format, rx: Rx, line: seq<bool>)
    requires ValidFormat(f) && rx.phase == RxIdle && FrameClocks(f) <= |line|
    requires StartsLow(f, line)
    ensures Run(f, rx, line[..FrameClocks(f) - 1]).chars == []
    ensures Run(f, rx, line[..FrameClocks(f)]).chars == [Decoded(f, SampledLevels(f, line, StopIndex(f)))]
    ensures Run(f, rx, line[..FrameClocks(f)]).rx.phase == RxIdle
  {
    hide Run, Holding, Decoded;
    var last := StopIndex(f) - 1;
    var from, taken := SamplePoint(f, last) + 1, SampledLevels(f, line, last);
    SamplePointNext(f, last);
    Sampled(f, rx, line, last);
    Advance(f, rx, line, from, taken);
    NothingYet(f, rx, line, from, taken);
  }

  lemma NothingYet(f: Format, rx: Rx, line: seq<bool>, from: nat, taken: seq<bool>)
    requires ValidFormat(f) && |taken| < StopIndex(f) && from + f.divisor <= |line|
    requires Run(f, rx, line[..from]) == Outcome(Holding(f, taken, 0), [])
    ensures Run(f, rx, line[..from + f.divisor - 1]).chars == []
  {
    var to := from + f.divisor - 1;
    assert line[..to] == line[..from] + line[from..to];
    RunAfter(f, rx, line[..from], line[from..to], Holding(f, taken, 0));
    Waiting(f, taken, line[from..to]);
  }

  // ---------------------------------------------------------------- well-formed frames

  /** Level of bit k of the frame that carries character b; bit 0 is the start bit. */
  function FrameBit(f: Format, b: nat, k: nat): bool {
    if k == 0 then false
    else if k <= f.wordLength then Bit(b, k - 1)
    else if k == f.wordLength + 1 && f.parity != NoParity then
      OddOnes(b, f.wordLength) != (f.parity == Odd)
    else true
  }

  /** The character an error-free frame delivers: the word's low bits, no error. */
  function Clean(f: Format, b: nat): Char {
    Char(Low(b, f.wordLength), false, false)
  }

  /** The frame's bits are what the line shows wherever the receiver looks. */
  ghost predicate Carries(f: Format, b: nat, line: seq<bool>)
    requires ValidFormat(f)
  {
    && FrameClocks(f) <= |line|
    && StartsLow(f, line)
    && (forall k {:trigger FrameBit(f, b, k)} | 1 <= k <= StopIndex(f) ::
          SamplePoint(f, k) < |line| && line[SamplePoint(f, k)] == FrameBit(f, b, k))
  }

  lemma {:induction false} SamplesOfFrame(f: Format, b: nat, line: seq<bool>, k: nat)
    requires ValidFormat(f) && Carries(f, b, line) && k <= f.wordLength
    ensures Gather(SampledLevels(f, line, k)) == Low(b, k)
    ensures OddOnesIn(SampledLevels(f, line, k)) == OddOnes(b, k)
  {
    if k > 0 {
      SamplesOfFrame(f, b, line, k - 1);
      assert FrameBit(f, b, k) == line[SamplePoint(f, k)];
      assert SampledLevels(f, line, k)[..k - 1] == SampledLevels(f, line, k - 1);
    }
  }

  lemma {:induction false} SamplesPrefix(f: Format, line: seq<bool>, k: nat, n: nat)
    requires ValidFormat(f) && k <= n && SamplePoint(f, n) < |line|
    ensures SampledLevels(f, line, n)[..k] == SampledLevels(f, line, k)
    ensures k > 0 ==> SampledLevels(f, line, n)[k - 1] == line[SamplePoint(f, k)]
  {
    if k < n {
      SamplesPrefix(f, line, k, n - 1);
    }
  }

  lemma FrameDecodes(f: Format, b: nat, line: seq<bool>)
    requires ValidFormat(f) && Carries(f, b, line)
    ensures Decoded(f, SampledLevels(f, line, StopIndex(f))) == Clean(f, b)
  {
    var w, n := f.wordLength, StopIndex(f);
    SamplesOfFrame(f, b, line, w);
    SamplesPrefix(f, line, w, n);
    SamplesPrefix(f, line, w + 1, n);
    assert FrameBit(f, b, w + 1) == line[SamplePoint(f, w + 1)];
    assert FrameBit(f, b, n) == line[SamplePoint(f, n)];
  }

  /** A waveform that carries a frame and then stays at mark delivers exactly that character. */
  lemma FrameDelivers(f: Format, b: nat, rx: Rx, line: seq<bool>)
    requires ValidFormat(f) && rx.phase == RxIdle && Carries(f, b, line)
    requires forall t | FrameClocks(f) <= t < |line| :: line[t]
    ensures Run(f, rx, line).chars == [Clean(f, b)]
    ensures Run(f, rx, line).rx.phase == RxIdle
  {
    FrameDecodes(f, b, line);
    CharacterDelivered(f, rx, line);
    var n := FrameClocks(f);
    RunConcat(f, rx, line[..n], line[n..]);
    assert line == line[..n] + line[n..];
    MarkIsIgnored(f, Run(f, rx, line[..n]).rx, line[n..]);
  }

  /** False-start deletion: a pulse shorter than half a bit leaves an idle receiver that delivered nothing. */
  lemma FalseStartIsDeleted(f: Format, rx: Rx, pulse: seq<bool>)
    requires ValidFormat(f) && rx.phase == RxIdle
    requires 0 < |pulse| < Confirm(f) && (forall t | 0 <= t < |pulse| :: !pulse[t])
    ensures Run(f, rx, pulse + [true]).chars == []
    ensures var after := Run(f, rx, pulse + [true]).rx;
            after.phase == RxIdle && after.shift == rx.shift && after.shiftCount == rx.shiftCount
  {
    StartConfirmed(f, rx, pulse);
    RunOne(f, rx, pulse, true);
  }
}
