// Two ACIAs in the same mode on one clock, the transmit pin of the first wired to the receive line
// of the second: whatever the first accepts, the second receives, in order and without an error.

module SerialLink {
  import opened Bits
  import opened Receiver
  import opened AciaSpec
  import opened AciaRuns
  import opened TransmitLedger

  // ---------------------------------------------------------------- the receiver, bit by bit

  /** The first k samples of the frame of b. */
  function Taken(f: Format, b: nat, k: nat): (s: seq<bool>)
    ensures |s| == k
  {
    if k == 0 then [] else Taken(f, b, k - 1) + [FrameBit(f, b, k)]
  }

  /** The receiver when bit p - 1 of a frame has been on the line for o clocks. */
  ghost predicate RxAt(f: Format, b: nat, rx: Rx, p: nat, o: nat)
    requires ValidFormat(f)
  {
    && 1 <= p <= StopIndex(f) + 1 && 1 <= o <= f.divisor
    && (if o >= Confirm(f) then
          p <= StopIndex(f) && rx == Holding(f, Taken(f, b, p - 1), o - Confirm(f))
        else if p == 1 then
          rx.phase == RxStart && rx.clocks == o
        else
          rx == Holding(f, Taken(f, b, p - 2), f.divisor - Confirm(f) + o))
  }

  /** What a frame's step leads to: the next position, or the character. */
  ghost predicate Leads(f: Format, b: nat, step: Step, p: nat, o: nat)
    requires ValidFormat(f)
  {
    if p == StopIndex(f) + 1 && o == Confirm(f) then
      step.got == Some(Clean(f, b)) && step.rx.phase == RxIdle
    else
      step.got == None && RxAt(f, b, step.rx, p, o)
  }

  lemma {:induction false} TakenPrefix(f: Format, b: nat, k: nat, n: nat)
    requires k <= n
    ensures Taken(f, b, n)[..k] == Taken(f, b, k)
  {
    if k < n {
      TakenPrefix(f, b, k, n - 1);
    }
  }

  lemma {:induction false} TakenWord(f: Format, b: nat, k: nat)
    requires k <= f.wordLength
    ensures Gather(Taken(f, b, k)) == Low(b, k) && OddOnesIn(Taken(f, b, k)) == OddOnes(b, k)
  {
    if k > 0 {
      TakenWord(f, b, k - 1);
      assert Taken(f, b, k)[..k - 1] == Taken(f, b, k - 1);
    }
  }

  lemma TakenDecodes(f: Format, b: nat)
    requires ValidFormat(f)
    ensures Decoded(f, Taken(f, b, StopIndex(f))) == Clean(f, b)
  {
    var w, n := f.wordLength, StopIndex(f);
    TakenPrefix(f, b, w, n);
    TakenWord(f, b, w);
    assert Taken(f, b, w + 1)[w] == FrameBit(f, b, w + 1);
    assert Taken(f, b, n)[n - 1] == FrameBit(f, b, n);
    if n == w + 2 {
      assert Taken(f, b, n)[w] == Taken(f, b, w + 1)[w];
    }
  }

  lemma SampleLeads(f: Format, b: nat, p: nat)
    requires ValidFormat(f) && 2 <= p <= StopIndex(f) + 1
    ensures Leads(f, b, RxStep(f, Holding(f, Taken(f, b, p - 2), f.divisor - 1), FrameBit(f, b, p - 1)), p, Confirm(f))
  {
    if p - 1 < StopIndex(f) {
      TakesSample(f, Taken(f, b, p - 2), f.divisor - 1, FrameBit(f, b, p - 1));
    } else {
      SampleStop(f, Taken(f, b, p - 2), f.divisor - 1, FrameBit(f, b, p - 1));
      TakenDecodes(f, b);
    }
  }

  /** The line holds its bit for one more clock. */
  lemma RxHolds(f: Format, b: nat, rx: Rx, p: nat, o: nat)
    requires ValidFormat(f) && RxAt(f, b, rx, p, o) && o < f.divisor
    ensures Leads(f, b, RxStep(f, rx, FrameBit(f, b, p - 1)), p, o + 1)
  {
    if o >= Confirm(f) {
      Wait(f, Taken(f, b, p - 1), o - Confirm(f), FrameBit(f, b, p - 1));
    } else if p == 1 {
      StartHolds(f, b, rx, o);
    } else {
      HalfBitHolds(f, b, rx, p, o);
    }
  }

  lemma StartHolds(f: Format, b: nat, rx: Rx, o: nat)
    requires ValidFormat(f) && RxAt(f, b, rx, 1, o) && o < Confirm(f)
    ensures Leads(f, b, RxStep(f, rx, false), 1, o + 1)
  {
  }

  lemma HalfBitHolds(f: Format, b: nat, rx: Rx, p: nat, o: nat)
    requires ValidFormat(f) && RxAt(f, b, rx, p, o) && p > 1 && o < Confirm(f)
    ensures Leads(f, b, RxStep(f, rx, FrameBit(f, b, p - 1)), p, o + 1)
  {
    if o + 1 < Confirm(f) {
      Wait(f, Taken(f, b, p - 2), f.divisor - Confirm(f) + o, FrameBit(f, b, p - 1));
    } else {
      SampleLeads(f, b, p);
    }
  }

  /** The line moves on to the frame's next bit. */
  lemma RxMovesOn(f: Format, b: nat, rx: Rx, p: nat)
    requires ValidFormat(f) && RxAt(f, b, rx, p, f.divisor)
    ensures p <= StopIndex(f) && Leads(f, b, RxStep(f, rx, FrameBit(f, b, p)), p + 1, 1)
  {
    hide FrameBit, Taken;
    if f.divisor == 1 {
      SampleLeads(f, b, p + 1);
    } else {
      Wait(f, Taken(f, b, p - 1), f.divisor - Confirm(f), FrameBit(f, b, p));
    }
  }

  /** The start edge. */
  lemma RxSeesStart(f: Format, b: nat, rx: Rx)
    requires ValidFormat(f) && rx.phase == RxIdle
    ensures Leads(f, b, RxStep(f, rx, FrameBit(f, b, 0)), 1, 1)
  {
  }

  // ---------------------------------------------------------------- the transmitter, bit by bit

  function TxParity(f: Format, b: nat, n: nat): nat {
    var odd := f.parity == Odd;
    if f.parity != NoParity && OddOnes(b, n) then (if odd then 0 else 1) else if odd then 1 else 0
  }

  /** The transmitter when p bits of the frame of b have been put on the line. */
  ghost predicate TxAt(cfg: Config, b: nat, tx: Tx, p: nat) {
    var f := cfg.format;
    && p <= StopIndex(f) + 1
    && tx.out == (p == 0 || FrameBit(f, b, p - 1))
    && (if p == 0 then
          tx.phase == SendStart && tx.shift == b && tx.count == 0 && tx.parityBit == TxParity(f, b, 0)
        else if p <= f.wordLength then
          tx.phase == SendBits && tx.shift == Right(b, p - 1) && tx.count == p - 1
          && tx.parityBit == TxParity(f, b, p - 1)
        else if p == f.wordLength + 1 && f.parity != NoParity then
          tx.phase == SendParity && tx.parityBit == TxParity(f, b, f.wordLength)
        else if p == StopIndex(f) then
          tx.phase == SendStop1
        else
          tx.phase in {Idle, SendStop2})
  }

  lemma ShiftPutsNextBit(cfg: Config, b: nat, tx: Tx, p: nat)
    requires ValidFormat(cfg.format) && TxAt(cfg, b, tx, p) && p <= StopIndex(cfg.format)
    ensures TxAt(cfg, b, ShiftOut(cfg, tx), p + 1)
  {
    if 1 <= p <= cfg.format.wordLength {
      BottomBit(b, p - 1);
    }
  }

  // ---------------------------------------------------------------- the link

  datatype LinkEvent = Write(data: byte) | Clock | Read

  /** The two chips, what the first has accepted and the second received, and the byte on its way. */
  datatype Link = Link(a: State, b: State, accepted: seq<byte>, received: seq<Char>, flying: seq<byte>)

  function Step(l: Link, e: LinkEvent): Link {
    match e
    case Write(data) =>
      l.(a := WriteTdr(l.a, data), accepted := if l.a.sr.tdre then l.accepted + [data] else l.accepted)
    case Read => l.(b := ReadRdr(l.b))
    case Clock =>
      var a := TxClock(l.a);
      var wired := SetLine(l.b, a.tx.out);
      var got := Received(wired);
      l.(a := a, b := RxClock(wired), received := l.received + Emit(got),
         flying := if got.Some? then [] else if Loads(l.a) then [l.a.tx.tdr] else l.flying)
  }

  function Steps(l: Link, events: seq<LinkEvent>): Link {
    if events == [] then l else Step(Steps(l, events[..|events| - 1]), events[|events| - 1])
  }

  function CleanBytes(f: Format, text: seq<byte>): seq<Char> {
    if text == [] then [] else CleanBytes(f, text[..|text| - 1]) + [Clean(f, text[|text| - 1])]
  }

  ghost predicate Wired(l: Link) {
    && Consistent(l.a) && !l.a.pins.cts && !l.a.tx.brk
    && l.b.cfg.format == l.a.cfg.format && l.b.pins.carrier
  }

  /** Clocks for which the current bit has been on the line. */
  function Held(a: State): int {
    a.cfg.format.divisor - a.tx.ticks + 1
  }

  /** Where a byte on its way is, on both sides. */
  ghost predicate Flying(l: Link, b: byte, p: nat)
    requires ValidFormat(l.a.cfg.format)
  {
    && TxAt(l.a.cfg, b, l.a.tx, p)
    && (if p == 0 then l.b.rx.phase == RxIdle
        else Held(l.a) >= 1 && RxAt(l.a.cfg.format, b, l.b.rx, p, Held(l.a)))
  }

  ghost predicate InStep(l: Link) {
    && Wired(l)
    && (l.flying == [] || (|l.flying| == 1 && exists p :: 0 <= p && Flying(l, l.flying[0], p)))
    && (l.flying == [] ==> l.a.tx.phase in {Idle, SendStop2} && l.a.tx.out && l.b.rx.phase == RxIdle)
    && Tallies(l)
  }

  /** What was accepted is what was received, then the byte on its way, then the TDR. */
  ghost predicate Tallies(l: Link) {
    CleanBytes(l.a.cfg.format, l.accepted)
    == l.received + CleanBytes(l.a.cfg.format, l.flying) + CleanBytes(l.a.cfg.format, InTdr(l.a))
  }

  lemma WriteKeepsStep(l: Link, data: byte)
    requires InStep(l)
    ensures InStep(Step(l, Write(data)))
  {
    hide RxAt, Clean;
    var m, f := Step(l, Write(data)), l.a.cfg.format;
    StepKeepsConsistent(l.a, DataWrite(data));
    if l.flying != [] {
      var p :| 0 <= p && Flying(l, l.flying[0], p);
      assert Flying(m, m.flying[0], p);
    }
    if l.a.sr.tdre {
      assert CleanBytes(f, []) == [] && InTdr(l.a) == [];
      assert CleanBytes(f, InTdr(m.a)) == [Clean(f, data)];
      assert (l.accepted + [data])[..|l.accepted|] == l.accepted;
    }
  }

  lemma ReadKeepsStep(l: Link)
    requires InStep(l)
    ensures InStep(Step(l, Read))
  {
    var m := Step(l, Read);
    if l.flying != [] {
      var p :| 0 <= p && Flying(l, l.flying[0], p);
      assert Flying(m, m.flying[0], p);
    }
  }

  /** A clock with nothing on its way: the line stays at mark; a byte may leave the TDR. */
  lemma IdleClock(l: Link)
    requires InStep(l) && l.flying == []
    ensures InStep(Step(l, Clock))
  {
    hide RxAt;
    var m := Step(l, Clock);
    StepKeepsConsistent(l.a, TxTick);
    IdleLine(l);
    if Loads(l.a) {
      var b := l.a.tx.tdr;
      assert m.flying == [b] && InTdr(m.a) == [] && InTdr(l.a) == [b];
      assert Flying(m, b, 0);
    }
  }

  lemma IdleLine(l: Link)
    requires Wired(l) && l.a.tx.phase in {Idle, SendStop2} && l.a.tx.out && l.b.rx.phase == RxIdle
    ensures var m := Step(l, Clock);
            && m.received == l.received && m.b.rx.phase == RxIdle && m.b.cfg == l.b.cfg && m.b.pins.carrier
            && m.a.cfg == l.a.cfg && m.a.pins.cts == l.a.pins.cts && m.a.tx.out && !m.a.tx.brk
            && (if Loads(l.a) then m.a.tx == Load(l.a.cfg, l.a.tx).(ticks := m.a.tx.ticks)
                else m.a.tx.phase in {Idle, SendStop2} && m.a.tx.full == l.a.tx.full && m.a.tx.tdr == l.a.tx.tdr)
  {
  }

  /** Where a clock takes a byte that is on its way: to the next bit, or one clock on. */
  lemma ByteMoves(l: Link, b: byte, p: nat, q: nat, o: int)
    requires Wired(l) && Flying(l, b, p)
    requires Shifts(l.a) ==> q == p + 1 && o == 1
    requires !Shifts(l.a) ==> q == p && o == Held(l.a) + 1
    ensures var a := TxClock(l.a);
            && q <= StopIndex(l.a.cfg.format) + 1
            && TxAt(l.a.cfg, b, a.tx, q) && (q > 0 ==> Held(a) == o >= 1)
            && var step := RxStep(l.a.cfg.format, l.b.rx, a.tx.out);
               if q == 0 then step == Receiver.Step(l.b.rx, None)
               else Leads(l.a.cfg.format, b, step, q, o)
  {
    var f := l.a.cfg.format;
    if Shifts(l.a) {
      if p > 0 { RxMovesOn(f, b, l.b.rx, p); } else { RxSeesStart(f, b, l.b.rx); }
      ShiftPutsNextBit(l.a.cfg, b, l.a.tx, p);
    } else if p > 0 {
      RxHolds(f, b, l.b.rx, p, Held(l.a));
    }
  }

  /** A clock with a byte on its way. */
  lemma FlyingClock(l: Link, b: byte, p: nat)
    requires Wired(l) && Tallies(l) && l.flying == [b] && Flying(l, b, p)
    ensures InStep(Step(l, Clock))
  {
    var m, f := Step(l, Clock), l.a.cfg.format;
    StepKeepsConsistent(l.a, TxTick);
    ShiftOutKeepsRegister(l.a.cfg, l.a.tx);
    var q, o := if Shifts(l.a) then p + 1 else p, if Shifts(l.a) then 1 else Held(l.a) + 1;
    ByteMoves(l, b, p, q, o);
    assert !Loads(l.a);
    StillTallies(l, b, Received(SetLine(l.b, m.a.tx.out)));
    if Received(SetLine(l.b, m.a.tx.out)).None? {
      assert Flying(m, b, q);
    }
  }

  lemma StillTallies(l: Link, b: byte, got: Option<Char>)
    requires Wired(l) && Tallies(l) && l.flying == [b] && !Loads(l.a)
    requires got == Received(SetLine(l.b, TxClock(l.a).tx.out))
    requires got.Some? ==> got.value == Clean(l.a.cfg.format, b)
    ensures Tallies(Step(l, Clock))
  {
    var f, m := l.a.cfg.format, Step(l, Clock);
    ShiftOutKeepsRegister(l.a.cfg, l.a.tx);
    assert InTdr(m.a) == InTdr(l.a);
    assert CleanBytes(f, [b]) == [Clean(f, b)] && CleanBytes(f, []) == [];
    if got.Some? {
      assert (l.received + [Clean(f, b)]) + [] == l.received + [Clean(f, b)];
    }
  }

  lemma StepKeepsStep(l: Link, e: LinkEvent)
    requires InStep(l)
    ensures InStep(Step(l, e))
  {
    match e
    case Write(data) => WriteKeepsStep(l, data);
    case Read => ReadKeepsStep(l);
    case Clock =>
      if l.flying == [] {
        IdleClock(l);
      } else {
        var p :| 0 <= p && Flying(l, l.flying[0], p);
        FlyingClock(l, l.flying[0], p);
      }
  }

  /** In every run, what was accepted is what was received, then the byte on its way, then the TDR. */
  lemma {:induction false} LinkDelivers(l: Link, events: seq<LinkEvent>)
    requires InStep(l)
    ensures InStep(Steps(l, events))
  {
    if events != [] {
      LinkDelivers(l, events[..|events| - 1]);
      StepKeepsStep(Steps(l, events[..|events| - 1]), events[|events| - 1]);
    }
  }

  /** Two idle chips that have just been set to the same one of the 24 modes are in step. */
  lemma FreshLinkIsInStep(a: State, b: State)
    requires Consistent(a) && !a.pins.cts && !a.tx.brk && a.tx.phase == Idle && a.tx.out && !a.tx.full
    requires b.cfg.format == a.cfg.format && b.pins.carrier && b.rx.phase == RxIdle
    ensures InStep(Link(a, b, [], [], []))
  {
  }

  lemma {:induction false} CleanBytesAt(f: Format, text: seq<byte>)
    ensures |CleanBytes(f, text)| == |text|
    ensures forall i | 0 <= i < |text| :: CleanBytes(f, text)[i] == Clean(f, text[i])
  {
    if text != [] {
      CleanBytesAt(f, text[..|text| - 1]);
    }
  }

  /**
   * The whole link: after any run, character i received is byte i accepted, with no parity or framing
   * error, and at most two accepted bytes are still to come: one on its way and one in the TDR.
   */
  lemma WhatIsSentArrives(a: State, b: State, events: seq<LinkEvent>)
    requires Consistent(a) && !a.pins.cts && !a.tx.brk && a.tx.phase == Idle && a.tx.out && !a.tx.full
    requires b.cfg.format == a.cfg.format && b.pins.carrier && b.rx.phase == RxIdle
    ensures var l := Steps(Link(a, b, [], [], []), events);
            && |l.accepted| == |l.received| + |l.flying| + |InTdr(l.a)| <= |l.received| + 2
            && forall i | 0 <= i < |l.received| :: l.received[i] == Clean(l.a.cfg.format, l.accepted[i])
  {
    FreshLinkIsInStep(a, b);
    LinkDelivers(Link(a, b, [], [], []), events);
    var l := Steps(Link(a, b, [], [], []), events);
    CleanBytesAt(l.a.cfg.format, l.accepted);
    CleanBytesAt(l.a.cfg.format, l.flying);
    CleanBytesAt(l.a.cfg.format, InTdr(l.a));
  }
}
