// Raw tapes, which have a carrier for as long as there are bits to play and no longer: they load as a tape of samples
// would, without their first ten bytes and without their last.

module RawLoading {
  import opened Bits
  import opened Receiver
  import opened TapeStreams
  import opened TapePlayer
  import opened TapeLoading
  import opened TapeTrails
  import opened SerialUlaSpec
  import opened CarrierLock

  /** The carrier is looked for when a bit has been taken: with the last one it is gone. */
  function RawSamples(bits: seq<bool>): (r: seq<Sample>)
    ensures |r| == |bits|
  {
    seq(|bits|, i requires 0 <= i < |bits| => Sample(bits[i], i + 1 < |bits|))
  }

  // ---------------------------------------------------------------- a raw tape is a tape of samples

  predicate HasRaw(c: Chain) {
    c.port.Some? && c.port.value.deck.RawDeck? && c.port.value.deck.at <= |c.port.value.deck.bits|
  }

  /** The same machine with those samples on its tape. */
  function WithSamples(c: Chain): Chain
    requires HasRaw(c)
  {
    var d := c.port.value.deck;
    c.(port := Some(c.port.value.(deck := UefDeck(RawSamples(d.bits), d.at, d.at < |d.bits|))))
  }

  lemma EdgeIsSame(c: Chain)
    requires HasRaw(c)
    ensures HasRaw(Tick16(c)) && WithSamples(Tick16(c)) == Tick16(WithSamples(c))
  {
    hide Record, Chip.TxClock, Chip.RxClock, Chip.SetLine, Lock, Counted;
    TransmitIsSame(c);
    ReceiveIsSame(TickTx(c));
  }

  lemma TransmitIsSame(c: Chain)
    requires HasRaw(c)
    ensures HasRaw(TickTx(c)) && WithSamples(TickTx(c)) == TickTx(WithSamples(c))
  {
    hide Record, Chip.TxClock;
  }

  lemma ReceiveIsSame(c: Chain)
    requires HasRaw(c)
    ensures HasRaw(TickRx(c)) && WithSamples(TickRx(c)) == TickRx(WithSamples(c))
  {
    hide Chip.RxClock, Chip.SetLine, Lock, Counted, RxDue, RxDivider;
    PortIsSame(c);
    hide PortNext, PortBit, PortCarrier;
  }

  lemma PortIsSame(c: Chain)
    requires HasRaw(c)
    ensures var p, q := c.port.value, WithSamples(c).port.value;
            && HasRaw(c.(port := Some(PortNext(p))))
            && WithSamples(c.(port := Some(PortNext(p)))).port == Some(PortNext(q))
            && PortBit(q) == PortBit(p) && PortCarrier(PortNext(q)) == PortCarrier(PortNext(p))
  {
  }

  lemma ScrIsSame(c: Chain, data: byte)
    requires HasRaw(c)
    ensures HasRaw(WriteScr(c, data)) && WithSamples(WriteScr(c, data)) == WriteScr(WithSamples(c), data)
  {
    hide Chip.RaiseCts, Chip.ClearCts, Chip.DropCarrier, Divider, RxDivider, MotorOn, Rs423;
  }

  /** In every session that leaves the tape in, everything but the recording is as with the samples. */
  lemma {:induction false} RawPlaysAsSamples(c: Chain, acts: seq<Act>)
    requires HasRaw(c) && forall i | 0 <= i < |acts| :: !acts[i].Insert?
    ensures HasRaw(DoAll(c, acts)) && WithSamples(DoAll(c, acts)) == DoAll(WithSamples(c), acts)
  {
    hide HasRaw, WithSamples, Tick16, WriteScr, AciaRuns.Apply;
    if acts != [] {
      var before, a := DoAll(c, acts[..|acts| - 1]), acts[|acts| - 1];
      RawPlaysAsSamples(c, acts[..|acts| - 1]);
      match a
      case Edge16 => EdgeIsSame(before);
      case WriteControl(data) => ScrIsSame(before, data);
      case Access(e) => AccessIsSame(before, e);
    }
  }

  lemma AccessIsSame(c: Chain, e: AciaRuns.Event)
    requires HasRaw(c)
    ensures HasRaw(Do(c, Access(e))) && WithSamples(Do(c, Access(e))) == Do(WithSamples(c), Access(e))
  {
    hide AciaRuns.Apply;
  }

  /** With the motor off a tape of either kind stands still, at mark and without a carrier, and records nothing. */
  lemma NothingMovesWithoutMotor(p: Port, bit: bool)
    requires !p.motorOn
    ensures PortBit(p) && !PortCarrier(p) && PortNext(p) == p && PortRecord(p, bit) == p
  {
  }

  // ---------------------------------------------------------------- what a raw tape delivers

  /** Bits before the lock are not heard. */
  lemma {:induction false} Unheard(f: Format, samples: seq<Sample>, p: Player, n: nat)
    requires ValidFormat(f) && AtBoundary(f, p) && p.rx.phase == RxIdle && p.count + n < CARRIER_LOCK
    requires p.at + n <= |samples| && forall i | p.at <= i < p.at + n :: samples[i].carrier
    ensures var r := PlayBits(f, samples, p, n);
            r.chars == [] && r.player == Further(p, n, p.rx).(bit := r.player.bit) && AtBoundary(f, r.player)
  {
    hide Play, Run;
    if n > 0 {
      Unheard(f, samples, p, n - 1);
      PlaysCarriedBit(f, samples, PlayBits(f, samples, p, n - 1).player);
    }
  }

  /** A bit in the middle of a character. */
  lemma MiddleBit(f: Format, t: seq<bool>, bit: bool)
    requires Is8N1(f) && |t| < 8
    ensures Run(f, Midway(f, t), Hold(bit, f.divisor)) == Outcome(Midway(f, t + [bit]), [])
  {
    hide Run, Holding, Confirm, Is8N1;
    var c, d := Confirm(f), f.divisor;
    ConfirmWithin(f);
    ToSample(f, t, bit);
    HoldSplits(bit, c, d);
    RunConcat(f, Midway(f, t), Hold(bit, c), Hold(bit, d - c));
    WaitsFrom(f, t + [bit], 0, bit, d - c);
  }

  /** The first k bits of a frame. */
  lemma {:induction false} PlaysPartOfFrame(f: Format, samples: seq<Sample>, p: Player, frame: seq<bool>, k: nat)
    requires Is8N1(f) && AtBoundary(f, p) && p.rx.phase == RxIdle && CARRIER_LOCK <= p.count
    requires 1 <= k <= 9 && |frame| == 10 && !frame[0] && p.count + 9 <= 0xffff_ffff
    requires p.at + 9 <= |samples| && forall i | 0 <= i < 9 :: samples[p.at + i] == Sample(frame[i], true)
    ensures var r := PlayBits(f, samples, p, k);
            && r.chars == [] && r.player.rx == Midway(f, frame[1..k]) && AtBoundary(f, r.player)
            && r.player.at == p.at + k && r.player.count == p.count + k
  {
    hide Play, Run, Midway;
    var q := PlayBits(f, samples, p, k - 1).player;
    assert PlayBits(f, samples, p, 0) == Played(p, []);
    if k == 1 {
      PlaysCarriedBit(f, samples, p);
      IdleLow(f, p.rx, f.divisor);
      assert frame[1..1] == [];
    } else {
      PlaysPartOfFrame(f, samples, p, frame, k - 1);
      assert samples[p.at + (k - 1)] == Sample(frame[k - 1], true);
      PlaysCarriedBit(f, samples, q);
      MiddleBit(f, frame[1..k - 1], frame[k - 1]);
      assert frame[1..k - 1] + [frame[k - 1]] == frame[1..k];
    }
  }

  /** The last bit takes the carrier with it. */
  lemma PlaysLastBit(f: Format, samples: seq<Sample>, p: Player)
    requires ValidFormat(f) && AtBoundary(f, p) && p.at + 1 == |samples| && samples[p.at] == Sample(true, false)
    requires p.present || p.rx.phase == RxIdle
    ensures var r := PlayBits(f, samples, p, 1);
            && r.chars == [] && r.player.rx.phase == RxIdle && AtBoundary(f, r.player)
            && r.player.at == |samples| && r.player.count == 0
  {
    hide Play, Run;
    PlaysBitPeriod(f, samples, p);
    assert PlayBits(f, samples, p, 0) == Played(p, []);
  }

  lemma RawSampleAt(text: seq<byte>, n: nat, k: nat)
    requires n < |text| && k < 10
    ensures |RawSamples(Frames8N1(text))| == 10 * |text|
    ensures RawSamples(Frames8N1(text))[10 * n + k] == Sample(Frame8N1(text[n])[k], 10 * n + k + 1 < 10 * |text|)
    ensures k == 0 ==> !Frame8N1(text[n])[k]
    ensures k == 9 ==> Frame8N1(text[n])[k]
  {
    FrameBitAt(text, n, k);
    FramesLength(text);
  }

  /** The bytes between the tenth and the last are on the tape whole. */
  lemma MiddleAhead(text: seq<byte>)
    requires 11 <= |text|
    ensures |Frames8N1(text[10..|text| - 1])| == 10 * (|text| - 11)
    ensures Ahead(RawSamples(Frames8N1(text)), 100, Carried(Frames8N1(text[10..|text| - 1])))
  {
    var samples, mid := RawSamples(Frames8N1(text)), text[10..|text| - 1];
    FramesLength(text);
    FramesLength(mid);
    var run := Carried(Frames8N1(mid));
    hide RawSamples, Frames8N1;
    forall i | 0 <= i < |run| ensures samples[100 + i] == run[i] {
      FrameBitAt(mid, i / 10, i % 10);
      RawSampleAt(text, 10 + i / 10, i % 10);
      assert mid[i / 10] == text[10 + i / 10];
    }
    assert samples[100..100 + |run|] == run;
  }

  /** What is left of a raw tape's bytes. */
  function Middle(text: seq<byte>): seq<byte> {
    if |text| < 12 then [] else text[10..|text| - 1]
  }

  lemma ShortTape(f: Format, text: seq<byte>, p: Player)
    requires Is8N1(f) && AtBoundary(f, p) && p.rx.phase == RxIdle && p.at == 0 && p.count == 0 && 1 <= |text| <= 10
    ensures var samples := RawSamples(Frames8N1(text));
            var r := PlayBits(f, samples, p, 10 * |text|);
            && r.chars == [] && r.player.rx.phase == RxIdle && AtBoundary(f, r.player)
            && r.player.at == |samples| && r.player.count == 0
  {
    hide PlayBits, RawSamples, Frames8N1;
    var samples, n := RawSamples(Frames8N1(text)), 10 * |text| - 1;
    AllButLast(text);
    Unheard(f, samples, p, n);
    RawSampleAt(text, |text| - 1, 9);
    PlaysLastBit(f, samples, PlayBits(f, samples, p, n).player);
    BitsGoOn(f, samples, p, n, 1);
  }

  lemma AllButLast(text: seq<byte>)
    ensures var samples := RawSamples(Frames8N1(text));
            |samples| == 10 * |text| && forall i | 0 <= i < |samples| - 1 :: samples[i].carrier
  {
    FramesLength(text);
  }

  /** Up to the lock and the hundredth bit, and the whole bytes after it. */
  lemma UpToLastByte(f: Format, text: seq<byte>, p: Player)
    requires Is8N1(f) && AtBoundary(f, p) && p.rx.phase == RxIdle && p.at == 0 && p.count == 0
    requires 11 <= |text| && 10 * |text| <= 0xffff_ffff
    ensures var n := 10 * (|text| - 1);
            var r := PlayBits(f, RawSamples(Frames8N1(text)), p, n);
            && r.chars == Received(text[10..|text| - 1]) && r.player.rx.phase == RxIdle && AtBoundary(f, r.player)
            && r.player.at == r.player.count == n
  {
    hide PlayBits, RawSamples, Frames8N1, Received, Ahead;
    var samples, mid := RawSamples(Frames8N1(text)), text[10..|text| - 1];
    AllButLast(text);
    Unheard(f, samples, p, 99);
    RawSampleAt(text, 9, 9);
    HundredthAhead(samples);
    var q := PlayBits(f, samples, p, 99).player;
    PlaysTone(f, samples, q, 1);
    BitsGoOn(f, samples, p, 99, 1);
    MiddleAhead(text);
    PlaysText(f, samples, PlayBits(f, samples, p, 100).player, mid);
    BitsGoOn(f, samples, p, 100, 10 * (|text| - 11));
    assert [] + Received(mid) == Received(mid);
  }

  lemma HundredthAhead(samples: seq<Sample>)
    requires 100 < |samples| && samples[99] == Sample(true, true)
    ensures Ahead(samples, 99, Carried(Mark(1)))
  {
    assert samples[99..100] == Carried(Mark(1));
  }

  lemma LongTape(f: Format, text: seq<byte>, p: Player)
    requires Is8N1(f) && AtBoundary(f, p) && p.rx.phase == RxIdle && p.at == 0 && p.count == 0
    requires 11 <= |text| && 10 * |text| <= 0xffff_ffff
    ensures var samples := RawSamples(Frames8N1(text));
            var r := PlayBits(f, samples, p, 10 * |text|);
            && r.chars == Received(text[10..|text| - 1]) && r.player.rx.phase == RxIdle && AtBoundary(f, r.player)
            && r.player.at == |samples| && r.player.count == 0
  {
    hide PlayBits, RawSamples, Frames8N1, Received, Frame8N1;
    var samples, n, last := RawSamples(Frames8N1(text)), 10 * (|text| - 1), text[|text| - 1];
    UpToLastByte(f, text, p);
    var q := PlayBits(f, samples, p, n).player;
    AllButLast(text);
    forall i | 0 <= i < 9 ensures samples[n + i] == Sample(Frame8N1(last)[i], true) {
      RawSampleAt(text, |text| - 1, i);
    }
    RawSampleAt(text, |text| - 1, 0);
    RawSampleAt(text, |text| - 1, 9);
    PlaysPartOfFrame(f, samples, q, Frame8N1(last), 9);
    BitsGoOn(f, samples, p, n, 9);
    PlaysLastBit(f, samples, PlayBits(f, samples, p, n + 9).player);
    BitsGoOn(f, samples, p, n + 9, 1);
    assert Received(text[10..|text| - 1]) + [] == Received(text[10..|text| - 1]);
  }

  /**
   * A raw tape played to its end, and any time longer: its first ten bytes go by before the carrier lock and the
   * carrier goes with its last bit, so that just the bytes between are received.
   */
  lemma RawTapeDelivers(f: Format, text: seq<byte>, p: Player, n: nat)
    requires Is8N1(f) && AtBoundary(f, p) && p.rx.phase == RxIdle && p.at == 0 && p.count == 0
    requires 10 * |text| <= n && 10 * |text| <= 0xffff_ffff
    ensures PlayBits(f, RawSamples(Frames8N1(text)), p, n).chars == Received(Middle(text))
  {
    hide PlayBits, RawSamples, Frames8N1;
    var samples, end := RawSamples(Frames8N1(text)), 10 * |text|;
    if text == [] {
      EmptyTape(f, p);
    } else if |text| <= 10 {
      ShortTape(f, text, p);
    } else {
      LongTape(f, text, p);
      assert |text| == 11 ==> text[10..|text| - 1] == [];
    }
    AllButLast(text);
    var q := PlayBits(f, samples, p, end).player;
    EndIsSilent(f, samples, q, n - end);
    BitsGoOn(f, samples, p, end, n - end);
    assert Received(Middle(text)) + [] == Received(Middle(text));
  }

  lemma EmptyTape(f: Format, p: Player)
    requires p.at == 0
    ensures PlayBits(f, RawSamples(Frames8N1([])), p, 0) == Played(p, [])
  {
  }
}
