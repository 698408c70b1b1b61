// The receive path from the tape to the ACIA's shift register, cut out of the board: a machine that
// depends on the tape alone, and the characters it delivers for any tape of tones, data and gaps.

module TapePlayer {
  import opened Bits
  import opened Receiver
  import opened BitRate
  import opened TapeStreams
  import opened TapeText
  import opened SerialUlaSpec

  /** Tape position, bit clock, carrier lock and receiver. */
  datatype Player = Player(at: nat, tapeCounter: nat, bit: bool, count: nat, present: bool, rx: Rx)

  datatype Played = Played(player: Player, chars: seq<Char>)

  /** The sample under the head; past the end the line is at mark without a carrier. */
  function Under(samples: seq<Sample>, at: nat): Sample {
    if at < |samples| then samples[at] else Sample(true, false)
  }

  predicate StillPresent(p: Player, carrier: bool) {
    if carrier then p.present || Inc32(p.count) == CARRIER_LOCK else p.present && p.count < CARRIER_LOCK
  }

  /** Taking the next bit from the tape. */
  function Fetch(samples: seq<Sample>, p: Player): Player {
    var s := Under(samples, p.at);
    var present := StillPresent(p, s.carrier);
    Player(if p.at < |samples| then p.at + 1 else p.at, 0, s.bit, Counted(p.count, s.carrier), present,
           if p.present && !present then p.rx.(phase := RxIdle, shiftCount := 0, clocks := 0) else p.rx)
  }

  function Clocked(f: Format, p: Player): Played {
    if !p.present then Played(p, []) else
      var step := RxStep(f, p.rx, p.bit);
      Played(p.(rx := step.rx), Emit(step.got))
  }

  /** One receiver clock. */
  function PlayClock(f: Format, samples: seq<Sample>, p: Player): Played {
    var counter := Inc32(p.tapeCounter);
    Clocked(f, if counter >= f.divisor then Fetch(samples, p) else p.(tapeCounter := counter))
  }

  function Play(f: Format, samples: seq<Sample>, p: Player, clocks: nat): Played {
    if clocks == 0 then Played(p, []) else
      var before := Play(f, samples, p, clocks - 1);
      var now := PlayClock(f, samples, before.player);
      Played(now.player, before.chars + now.chars)
  }

  lemma {:induction false} PlayOn(f: Format, samples: seq<Sample>, p: Player, m: nat, n: nat)
    ensures var first := Play(f, samples, p, m);
            var rest := Play(f, samples, first.player, n);
            && Play(f, samples, p, m + n).player == rest.player
            && Play(f, samples, p, m + n).chars == first.chars + rest.chars
  {
    hide PlayClock;
    if n > 0 {
      PlayOn(f, samples, p, m, n - 1);
      var first := Play(f, samples, p, m);
      var most := Play(f, samples, first.player, n - 1);
      var last := PlayClock(f, samples, most.player);
      assert Play(f, samples, p, m + n).chars == (first.chars + most.chars) + last.chars;
    }
  }

  // ---------------------------------------------------------------- one bit period

  /** What a whole bit period makes of the lock and the receiver. */
  function BitPeriod(f: Format, samples: seq<Sample>, p: Player): Played
    requires ValidFormat(f)
  {
    var q := Fetch(samples, p).(tapeCounter := f.divisor - 1);
    var r := if q.present then Run(f, q.rx, Hold(q.bit, f.divisor)) else Outcome(q.rx, []);
    Played(q.(rx := r.rx), r.chars)
  }

  /** The rest of a bit period: the line holds its level. */
  lemma {:induction false} HoldsLevel(f: Format, samples: seq<Sample>, p: Player, n: nat)
    requires ValidFormat(f) && p.tapeCounter + n < f.divisor
    ensures Play(f, samples, p, n) ==
            if p.present then
              var r := Run(f, p.rx, Hold(p.bit, n));
              Played(p.(tapeCounter := p.tapeCounter + n, rx := r.rx), r.chars)
            else
              Played(p.(tapeCounter := p.tapeCounter + n), [])
  {
    if n > 0 {
      HoldsLevel(f, samples, p, n - 1);
      assert Hold(p.bit, n)[..n - 1] == Hold(p.bit, n - 1);
    }
  }

  lemma FetchBegins(f: Format, samples: seq<Sample>, p: Player)
    requires ValidFormat(f) && p.tapeCounter == f.divisor - 1
    ensures Play(f, samples, p, 1) == Clocked(f, Fetch(samples, p)) && Fetch(samples, p).tapeCounter == 0
  {
    hide RxStep;
    assert Play(f, samples, p, 0) == Played(p, []);
  }

  /** The first clocks of a bit period: a fetch, and then its level. */
  lemma PlaysPart(f: Format, samples: seq<Sample>, p: Player, j: nat)
    requires ValidFormat(f) && p.tapeCounter == f.divisor - 1 && 1 <= j <= f.divisor
    ensures var q := Fetch(samples, p).(tapeCounter := j - 1);
            var r := if q.present then Run(f, q.rx, Hold(q.bit, j)) else Outcome(q.rx, []);
            Play(f, samples, p, j) == Played(q.(rx := r.rx), r.chars)
  {
    var q := Fetch(samples, p);
    FetchBegins(f, samples, p);
    hide Fetch, RxStep;
    PlayOn(f, samples, p, 1, j - 1);
    HoldsLevel(f, samples, Clocked(f, q).player, j - 1);
    FirstClock(f, q.rx, q.bit, j);
  }

  /** From one fetch to the next: a bit period is a fetch and a divisor's worth of clocks. */
  lemma PlaysBitPeriod(f: Format, samples: seq<Sample>, p: Player)
    requires ValidFormat(f) && p.tapeCounter == f.divisor - 1
    ensures Play(f, samples, p, f.divisor) == BitPeriod(f, samples, p)
  {
    PlaysPart(f, samples, p, f.divisor);
  }

  lemma FirstClock(f: Format, rx: Rx, bit: bool, n: nat)
    requires n > 0
    ensures var step := RxStep(f, rx, bit);
            var rest := Run(f, step.rx, Hold(bit, n - 1));
            Run(f, rx, Hold(bit, n)) == Outcome(rest.rx, Emit(step.got) + rest.chars)
  {
    RunSingle(f, rx, bit);
    hide Run, RxStep;
    RunConcat(f, rx, [bit], Hold(bit, n - 1));
    assert [bit] + Hold(bit, n - 1) == Hold(bit, n);
  }

  lemma RunSingle(f: Format, rx: Rx, bit: bool)
    ensures Run(f, rx, [bit]) == Outcome(RxStep(f, rx, bit).rx, Emit(RxStep(f, rx, bit).got))
  {
    hide RxStep;
    RunOne(f, rx, [], bit);
    assert [] + [bit] == [bit];
  }

  // ---------------------------------------------------------------- runs of samples

  function Carried(bits: seq<bool>): (r: seq<Sample>)
    ensures |r| == |bits|
  {
    seq(|bits|, i requires 0 <= i < |bits| => Sample(bits[i], true))
  }

  function Silent(n: nat): (r: seq<Sample>)
    ensures |r| == n
  {
    seq(n, _ => Sample(true, false))
  }

  /** The head stands before the given samples. */
  ghost predicate Ahead(samples: seq<Sample>, at: nat, run: seq<Sample>) {
    at + |run| <= |samples| && samples[at..at + |run|] == run
  }

  /** At a bit boundary, with the lock as the count says. */
  ghost predicate AtBoundary(f: Format, p: Player) {
    && p.tapeCounter + 1 == f.divisor
    && (p.present <==> p.count >= CARRIER_LOCK)
  }

  /** The player after n more samples with a carrier, its receiver as given. */
  function Further(p: Player, n: nat, rx: Rx): Player {
    Player(p.at + n, p.tapeCounter, p.bit, p.count + n, p.count + n >= CARRIER_LOCK, rx)
  }

  /** One sample with a carrier. */
  lemma PlaysCarriedBit(f: Format, samples: seq<Sample>, p: Player)
    requires ValidFormat(f) && AtBoundary(f, p) && p.count < 0xffff_ffff
    requires p.at < |samples| && samples[p.at].carrier
    ensures var bit := samples[p.at].bit;
            var r := if p.count + 1 >= CARRIER_LOCK then Run(f, p.rx, Hold(bit, f.divisor)) else Outcome(p.rx, []);
            Play(f, samples, p, f.divisor) == Played(Further(p, 1, r.rx).(bit := bit), r.chars)
  {
    hide Play, Run;
    PlaysBitPeriod(f, samples, p);
  }

  /** One sample without: the lock is lost and the receiver held. */
  lemma PlaysSilentBit(f: Format, samples: seq<Sample>, p: Player)
    requires ValidFormat(f) && AtBoundary(f, p) && p.rx.phase == RxIdle
    requires Under(samples, p.at) == Sample(true, false)
    ensures var r := Play(f, samples, p, f.divisor);
            && r.chars == [] && AtBoundary(f, r.player) && r.player.count == 0 && r.player.rx.phase == RxIdle
            && r.player.at == if p.at < |samples| then p.at + 1 else p.at
  {
    hide Play, Run;
    PlaysBitPeriod(f, samples, p);
  }

  /** The given number of bit periods. */
  function PlayBits(f: Format, samples: seq<Sample>, p: Player, n: nat): Played {
    if n == 0 then Played(p, []) else
      var before := PlayBits(f, samples, p, n - 1);
      var now := Play(f, samples, before.player, f.divisor);
      Played(now.player, before.chars + now.chars)
  }

  lemma {:induction false} BitsAreClocks(f: Format, samples: seq<Sample>, p: Player, n: nat, clocks: nat)
    requires clocks == n * f.divisor
    ensures PlayBits(f, samples, p, n).player == Play(f, samples, p, clocks).player
    ensures PlayBits(f, samples, p, n).chars == Play(f, samples, p, clocks).chars
  {
    if n > 0 {
      hide Play;
      var before := clocks - f.divisor;
      assert before == (n - 1) * f.divisor;
      BitsAreClocks(f, samples, p, n - 1, before);
      PlayOn(f, samples, p, before, f.divisor);
    }
  }

  lemma {:induction false} BitsGoOn(f: Format, samples: seq<Sample>, p: Player, m: nat, n: nat)
    ensures var first := PlayBits(f, samples, p, m);
            var rest := PlayBits(f, samples, first.player, n);
            && PlayBits(f, samples, p, m + n).player == rest.player
            && PlayBits(f, samples, p, m + n).chars == first.chars + rest.chars
  {
    hide Play;
    if n > 0 {
      BitsGoOn(f, samples, p, m, n - 1);
      var first := PlayBits(f, samples, p, m);
      var most := PlayBits(f, samples, first.player, n - 1);
      var last := Play(f, samples, most.player, f.divisor);
      assert PlayBits(f, samples, p, m + n).chars == (first.chars + most.chars) + last.chars;
    }
  }

  lemma AheadLess(samples: seq<Sample>, at: nat, run: seq<Sample>)
    requires run != [] && Ahead(samples, at, run)
    ensures Ahead(samples, at, run[..|run| - 1]) && samples[at + |run| - 1] == run[|run| - 1]
  {
    assert samples[at..at + |run|][..|run| - 1] == samples[at..at + |run| - 1];
  }

  lemma {:induction false} PlaysTone(f: Format, samples: seq<Sample>, p: Player, n: nat)
    requires ValidFormat(f) && AtBoundary(f, p) && p.rx.phase == RxIdle && p.count + n <= 0xffff_ffff
    requires Ahead(samples, p.at, Carried(Mark(n)))
    ensures var r := PlayBits(f, samples, p, n);
            r.chars == [] && r.player == Further(p, n, p.rx).(bit := r.player.bit)
  {
    hide Play, Run;
    if n > 0 {
      AheadLess(samples, p.at, Carried(Mark(n)));
      assert Carried(Mark(n))[..n - 1] == Carried(Mark(n - 1));
      PlaysTone(f, samples, p, n - 1);
      var q := PlayBits(f, samples, p, n - 1).player;
      PlaysCarriedBit(f, samples, q);
      MarkIsIgnored(f, q.rx, Hold(true, f.divisor));
    }
  }

  lemma {:induction false} PlaysSilence(f: Format, samples: seq<Sample>, p: Player, n: nat)
    requires ValidFormat(f) && AtBoundary(f, p) && p.rx.phase == RxIdle
    requires Ahead(samples, p.at, Silent(n))
    ensures var r := PlayBits(f, samples, p, n);
            && r.chars == [] && AtBoundary(f, r.player) && r.player.rx.phase == RxIdle
            && r.player.at == p.at + n && r.player.count == if n == 0 then p.count else 0
  {
    hide Play, Run;
    if n > 0 {
      AheadLess(samples, p.at, Silent(n));
      assert Silent(n)[..n - 1] == Silent(n - 1);
      PlaysSilence(f, samples, p, n - 1);
      PlaysSilentBit(f, samples, PlayBits(f, samples, p, n - 1).player);
    }
  }

  lemma StretchLast(bits: seq<bool>, clocks: nat)
    requires bits != []
    ensures Stretch(bits, clocks) == Stretch(bits[..|bits| - 1], clocks) + Hold(bits[|bits| - 1], clocks)
  {
    var last := bits[|bits| - 1];
    StretchConcat(bits[..|bits| - 1], [last], clocks);
    assert bits == bits[..|bits| - 1] + [last];
    assert Stretch([last], clocks) == Hold(last, clocks);
  }

  /** Data bits after enough leader: the receiver sees each for a bit's length. */
  lemma {:induction false} PlaysData(f: Format, samples: seq<Sample>, p: Player, bits: seq<bool>)
    requires ValidFormat(f) && AtBoundary(f, p) && CARRIER_LOCK <= p.count + 1
    requires p.count + |bits| <= 0xffff_ffff
    requires Ahead(samples, p.at, Carried(bits))
    ensures var r, o := PlayBits(f, samples, p, |bits|), Run(f, p.rx, Stretch(bits, f.divisor));
            && r.chars == o.chars
            && r.player == (if bits == [] then p else Further(p, |bits|, o.rx).(bit := r.player.bit))
  {
    hide Play, Run, Stretch;
    if bits == [] {
      InitEmpty(f, p.rx, bits);
    } else {
      var init, last := bits[..|bits| - 1], bits[|bits| - 1];
      AheadLess(samples, p.at, Carried(bits));
      assert Carried(bits)[..|bits| - 1] == Carried(init);
      PlaysData(f, samples, p, init);
      PlaysCarriedBit(f, samples, PlayBits(f, samples, p, |bits| - 1).player);
      StretchLast(bits, f.divisor);
      RunConcat(f, p.rx, Stretch(init, f.divisor), Hold(last, f.divisor));
      if init == [] {
        InitEmpty(f, p.rx, init);
      }
    }
  }

  lemma InitEmpty(f: Format, rx: Rx, bits: seq<bool>)
    requires bits == []
    ensures Run(f, rx, Stretch(bits, f.divisor)) == Outcome(rx, [])
  {
  }
}
