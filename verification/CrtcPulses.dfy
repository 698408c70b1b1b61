// How long a vertical sync pulse lasts: as many scan lines as its width, or sixteen for none, or one call.

module CrtcPulses {
  import opened CrtcSpec
  import opened CrtcFrames
  import opened Division

  function Wide(g: Regs): nat {
    g.horzTotal + 1
  }

  /** Where the pulse may start and end in a frame that is to have a dummy raster. */
  function Half(g: Regs): nat {
    g.horzTotal / 2
  }

  /** Sixteen lines for a width of zero. */
  function PulseLines(g: Regs): nat {
    if g.vsyncWidth == 0 then 16 else g.vsyncWidth
  }

  /** Calls from the one that raises a pulse, at the given column, to the one that ends it. */
  function PulseCalls(g: Regs, col: nat, half: bool): int {
    if half then PulseLines(g) * Wide(g)
    else if g.vsyncWidth == 0 && col < g.horzTotal then 1
    else PulseLines(g) * Wide(g) - col
  }

  /** This call raises the pulse. */
  predicate Raises(s: State) {
    !s.v.on && VsyncStarts(s.regs, s.scan.beam, s.v, s.field.dummyDue)
  }

  predicate Ends(s: State) {
    VsyncEnds(s.regs, s.scan.beam, s.v, s.field.dummyDue)
  }

  /** The pulse and its interrupt are on after each of the next n calls, and the call after those ends it. */
  ghost predicate Lasts(s: State, n: nat)
    requires InRange(s)
  {
    && (forall m: nat | 1 <= m <= n :: After(s, m).v.on && After(s, m).v.irq)
    && Ends(After(s, n)) && !After(s, n + 1).v.irq
  }

  /** Whether changes wait for the middle of a line. */
  predicate Held(s: State) {
    s.regs.mode % 2 == 1 && s.field.dummyDue
  }

  /** A pulse in progress, so many columns after the start of the line in which it was raised. */
  ghost predicate Pulsing(s: State, g: Regs, total: nat) {
    && s.regs == g && s.v.on && s.v.irq
    && s.scan.beam.col == total % Wide(g) && s.v.count == total / Wide(g) % 16
  }

  /** What a call that does not end the pulse leaves of it, with the given count at the line's end. */
  ghost predicate Beats(t: State, g: Regs, col: nat, count: nat) {
    && t.regs == g && t.v.on && t.v.irq
    && t.scan.beam.col == (if col == g.horzTotal then 0 else col + 1)
    && t.v.count == if col == g.horzTotal then (count + 1) % 16 else count
  }

  lemma RaisedBeats(s: State)
    requires InRange(s) && Raises(s) && s.scan.beam.col <= s.regs.horzTotal
    ensures Beats(Generate(s), s.regs, s.scan.beam.col, 0)
  {
    hide Output, NextEnable, FieldAfter, NextEnding, NextFetch, NextOpening, NextH, Wraps;
  }

  lemma PulseBeats(s: State)
    requires InRange(s) && s.v.on && s.v.irq && !Ends(s) && s.scan.beam.col <= s.regs.horzTotal
    ensures Beats(Generate(s), s.regs, s.scan.beam.col, s.v.count)
  {
    hide Output, NextEnable, FieldAfter, NextEnding, NextFetch, NextOpening, NextH, Wraps;
  }

  lemma PulseEnds(s: State)
    requires InRange(s) && Ends(s)
    ensures !Generate(s).v.irq
  {
    hide Output, NextEnable, FieldAfter, NextEnding, NextFetch, NextOpening, NextH, Wraps;
  }

  lemma Counted(lines: nat)
    ensures (lines % 16 + 1) % 16 == (lines + 1) % 16
  {
  }

  lemma PulseMoves(s: State, g: Regs, total: nat)
    requires InRange(s) && Pulsing(s, g, total) && !Ends(s)
    ensures Pulsing(Generate(s), g, total + 1)
  {
    hide Generate, Ends, InRange;
    PulseBeats(s);
    OneMore(total + 1, Wide(g));
    Counted(total / Wide(g));
  }

  lemma RaisedMoves(s: State, g: Regs)
    requires InRange(s) && s.regs == g && s.scan.beam.col <= g.horzTotal && Raises(s)
    ensures Pulsing(Generate(s), g, s.scan.beam.col + 1)
  {
    hide Generate, Raises, InRange;
    RaisedBeats(s);
    QuotientIs(s.scan.beam.col, Wide(g), 0, s.scan.beam.col);
    OneMore(s.scan.beam.col + 1, Wide(g));
  }

  // ---------------------------------------------------------------- the whole pulse

  /** Whether a pulse that has come so far ends. */
  predicate Due(g: Regs, total: nat, half: bool) {
    total / Wide(g) % 16 == g.vsyncWidth && (half ==> total % Wide(g) == Half(g))
  }

  lemma EndsWhenDue(s: State, g: Regs, total: nat, half: bool)
    requires Pulsing(s, g, total) && Held(s) == half
    ensures Ends(s) == Due(g, total, half)
  {
    hide Wide;
  }

  /** The pulse is due at its length and no sooner. */
  lemma DueAtLength(g: Regs, col: nat, half: bool, n: nat)
    requires Stored(g) && 1 <= g.horzTotal && col <= g.horzTotal && (half ==> col == Half(g))
    requires 1 <= n <= PulseCalls(g, col, half)
    ensures Due(g, col + n, half) == (n == PulseCalls(g, col, half))
  {
    if !half && g.vsyncWidth == 0 && col < g.horzTotal {
      QuotientIs(col + 1, Wide(g), 0, col + 1);
    } else if half {
      DueHalf(g, col, n);
    } else {
      DuePlain(g, col, n);
    }
  }

  lemma DueHalf(g: Regs, col: nat, n: nat)
    requires Stored(g) && 1 <= g.horzTotal && col == Half(g) && 1 <= n <= PulseLines(g) * Wide(g)
    ensures Due(g, col + n, true) == (n == PulseLines(g) * Wide(g))
  {
    var w, lines, total := Wide(g), PulseLines(g), col + n;
    if n == lines * w {
      QuotientIs(total, w, lines, col);
    } else if total % w == col {
      WholeLines(w, total / w, lines, total, col);
    }
  }

  /** Whole lines on from a column and not all of them: one of them at least, and fewer than all. */
  lemma WholeLines(w: nat, q: nat, lines: nat, total: nat, col: nat)
    requires 0 < w && total == w * q + col && col < total < lines * w + col
    ensures 0 < q < lines
  {
    Between(w, q, lines);
  }

  lemma DuePlain(g: Regs, col: nat, n: nat)
    requires Stored(g) && 1 <= g.horzTotal && col <= g.horzTotal && (g.vsyncWidth == 0 ==> col == g.horzTotal)
    requires 1 <= n <= PulseLines(g) * Wide(g) - col
    ensures Due(g, col + n, false) == (n == PulseLines(g) * Wide(g) - col)
  {
    var w, lines, total := Wide(g), PulseLines(g), col + n;
    var q := total / w;
    assert total == w * q + total % w;
    if total == lines * w {
      QuotientIs(total, w, lines, 0);
    } else {
      Between(w, q, lines);
      if g.vsyncWidth == 0 {
        AtLeastOne(w, q, total);
      }
    }
  }

  lemma AtLeastOne(w: nat, q: nat, total: nat)
    requires 0 < w <= total && total == w * q + total % w
    ensures 0 < q
  {
  }

  lemma Between(w: nat, q: nat, lines: nat)
    requires 0 < w && w * q < lines * w
    ensures q < lines
  {
    if lines < q {
      MultiplesGrow(w, lines, q);
    }
  }

  lemma PulseHasLength(g: Regs, col: nat, half: bool)
    requires col <= g.horzTotal
    ensures PulseCalls(g, col, half) >= 1
  {
    if PulseLines(g) > 1 {
      MultiplesGrow(Wide(g), 1, PulseLines(g));
    }
  }

  lemma {:induction false} PulseRuns(s: State, g: Regs, half: bool, n: nat)
    requires InRange(s) && s.regs == g && 1 <= g.horzTotal && s.scan.beam.col <= g.horzTotal && Raises(s)
    requires half ==> s.scan.beam.col == Half(g)
    requires 1 <= n <= PulseCalls(g, s.scan.beam.col, half)
    requires forall m: nat | 1 <= m <= n :: Held(After(s, m)) == half
    ensures Pulsing(After(s, n), g, s.scan.beam.col + n)
  {
    hide Generate, Raises, InRange, PulseCalls, Held;
    if n == 1 {
      NoneYet(s);
      RaisedMoves(s, g);
    } else {
      PulseRuns(s, g, half, n - 1);
      InRangeStores(s);
      DueAtLength(g, s.scan.beam.col, half, n - 1);
      EndsWhenDue(After(s, n - 1), g, s.scan.beam.col + n - 1, half);
      PulseMoves(After(s, n - 1), g, s.scan.beam.col + n - 1);
    }
  }

  lemma InRangeStores(s: State)
    requires InRange(s)
    ensures Stored(s.regs)
  {
  }

  /** A pulse lasts exactly its length, if changes are held to the middle of a line throughout or not at all. */
  lemma PulseLasts(s: State, g: Regs, half: bool)
    requires InRange(s) && s.regs == g && 1 <= g.horzTotal && s.scan.beam.col <= g.horzTotal && Raises(s)
    requires half ==> s.scan.beam.col == Half(g)
    requires forall m: nat | 1 <= m <= PulseCalls(g, s.scan.beam.col, half) :: Held(After(s, m)) == half
    ensures PulseCalls(g, s.scan.beam.col, half) >= 1 && Lasts(s, PulseCalls(g, s.scan.beam.col, half))
  {
    hide Generate, Raises, InRange, PulseCalls, Held;
    var col := s.scan.beam.col;
    PulseHasLength(g, col, half);
    var n: nat := PulseCalls(g, col, half);
    forall m: nat | 1 <= m <= n ensures After(s, m).v.on && After(s, m).v.irq {
      PulseRuns(s, g, half, m);
    }
    PulseRuns(s, g, half, n);
    InRangeStores(s);
    DueAtLength(g, col, half, n);
    EndsWhenDue(After(s, n), g, col + n, half);
    PulseEnds(After(s, n));
  }

  /**
   * Without interlace: a pulse raised at a column lasts to the start of the line so many further on, and a width of
   * zero means sixteen lines if it was raised at a line's last column but a single call if it was raised before.
   */
  lemma PlainPulse(s: State, g: Regs)
    requires InRange(s) && s.regs == g && 1 <= g.horzTotal && s.scan.beam.col <= g.horzTotal && Raises(s)
    requires g.mode % 2 == 0
    ensures PulseCalls(g, s.scan.beam.col, false) >= 1 && Lasts(s, PulseCalls(g, s.scan.beam.col, false))
  {
    hide Generate, Raises, InRange, PulseCalls, Lasts;
    forall m: nat | 1 <= m <= PulseCalls(g, s.scan.beam.col, false) ensures Held(After(s, m)) == false {
      RegsStay(s, m);
    }
    PulseLasts(s, g, false);
  }

  // ---------------------------------------------------------------- in an interlaced frame

  lemma RowsInOrder(g: Regs, r: nat, col: nat, q: Place, dummy: bool)
    requires Within(g, q, dummy) && r <= g.vertTotal && CallsTo(g, Main(r, 0, col)) <= CallsTo(g, q)
    requires col <= g.horzTotal
    ensures q.Main? ==> r <= q.row
  {
    hide Calls, Lines;
    if q.Main? && q.row < r {
      LinesGrow(g, q.row, r);
      CallsGrow(g, LineOf(g, q), LineOf(g, Main(r, 0, col)), q.col);
      CallsPastStart(g, LineOf(g, Main(r, 0, col)), col);
    }
  }

  /** From the row where the display ends to the frame's end the dummy raster stays due, or not due. */
  lemma StaysDue(s: State, g: Regs, count: nat, lit: bool, r: nat, col: nat, n: nat)
    requires Timed(g) && g.mode == 1 && At(s, g, ORIGIN, count, lit)
    requires g.vertDisp <= r <= g.vertTotal && col <= g.horzTotal
    requires CallsTo(g, Main(r, 0, col)) <= n < FrameCalls(g, DummyDue(g, count, lit))
    ensures After(s, n).regs == g && After(s, n).field.dummyDue == DummyDue(g, count, lit)
  {
    hide NextPlace, FrameCalls, Generate, CallsTo, Holds, InRange, Within;
    AtWithin(s, g, ORIGIN, count, lit);
    Reaches(s, g, n, count, lit);
    var q := PlaceAfter(g, n, DummyDue(g, count, lit));
    RowsInOrder(g, r, col, q, DummyDue(g, count, lit));
  }

  /** What a frame's place tells of its column. */
  lemma AtColumn(s: State, g: Regs, p: Place, count: nat, lit: bool)
    requires At(s, g, p, count, lit)
    ensures InRange(s) && s.regs == g && s.scan.beam == BeamAt(g, p)
  {
  }

  /** Where an even frame raises its pulse, and where an odd one does. */
  function SyncCol(g: Regs, even: bool): nat {
    if even then Half(g) else 0
  }

  /** That place in the sync row's first line, in a frame whose sync row lies below the display. */
  ghost predicate AtSync(s: State, g: Regs, count: nat, lit: bool, even: bool, at: nat) {
    && Timed(g) && g.mode == 1 && At(s, g, ORIGIN, count, lit) && DummyDue(g, count, lit) == even
    && g.vertDisp <= g.vsyncPos <= g.vertTotal && at == Rank(g, g.vsyncPos, 0, SyncCol(g, even))
  }

  lemma StaysHeld(s: State, g: Regs, count: nat, lit: bool, even: bool, at: nat, n: nat)
    requires InRange(s) && AtSync(s, g, count, lit, even, at) && at <= n < FrameCalls(g, even)
    ensures Held(After(s, n)) == even
  {
    hide InRange, FrameCalls, At, CallsTo, Rank, After, Timed, DummyDue;
    RankIs(g, g.vsyncPos, 0, SyncCol(g, even));
    StaysDue(s, g, count, lit, g.vsyncPos, SyncCol(g, even), n);
  }

  /** No pulse, and none yet in this row. */
  predicate NoPulse(s: State) {
    !s.v.on && !s.v.had
  }

  lemma StaysOff(s: State)
    requires InRange(s) && NoPulse(s) && !Raises(s)
    ensures NoPulse(Generate(s))
  {
    hide Output, NextEnable, FieldAfter, NextEnding, NextFetch, NextOpening, NextH, Wraps;
  }

  /** Before that place nothing raises a pulse. */
  lemma NotRaisedBefore(s: State, g: Regs, count: nat, lit: bool, even: bool, at: nat, n: nat)
    requires InRange(s) && AtSync(s, g, count, lit, even, at) && n < at < FrameCalls(g, even)
    ensures !Raises(After(s, n))
  {
    hide InRange, FrameCalls, At, CallsTo, After, Timed, DummyDue, Within, NextPlace, Rank, Held;
    AtWithin(s, g, ORIGIN, count, lit);
    RankIs(g, g.vsyncPos, 0, SyncCol(g, even));
    RankIs(g, g.vsyncPos, 0, 0);
    Reaches(s, g, n, count, lit);
    var q := PlaceAfter(g, n, even);
    AtWithin(After(s, n), g, q, count, lit);
    AtColumn(After(s, n), g, q, count, lit);
    BeforeSync(g, q, SyncCol(g, even), even, n, at);
    if q.row == g.vsyncPos {
      StaysDue(s, g, count, lit, g.vsyncPos, 0, n);
    }
  }

  lemma BeforeSync(g: Regs, q: Place, col: nat, dummy: bool, n: nat, at: nat)
    requires Within(g, q, dummy) && g.vsyncPos <= g.vertTotal && CallsTo(g, q) == n < at && col <= g.horzTotal
    requires at == CallsTo(g, Main(g.vsyncPos, 0, col))
    ensures q.Main? && q.row <= g.vsyncPos
    ensures q.row == g.vsyncPos ==> q.col < col && CallsTo(g, Main(g.vsyncPos, 0, 0)) <= n
  {
    hide Calls, Lines;
    var line := LineOf(g, Main(g.vsyncPos, 0, 0));
    if LineOf(g, q) > line {
      CallsGrow(g, line, LineOf(g, q), col);
      CallsPastStart(g, LineOf(g, q), q.col);
    }
    LinesGrow(g, g.vsyncPos, g.vertTotal + 1);
    if q.Main? && q.row > g.vsyncPos {
      LinesGrow(g, g.vsyncPos, q.row);
    }
    if q.Main? && q.row == g.vsyncPos {
      CallsPastStart(g, line, q.col);
      ColumnsInOrder(g, line, q.col, col);
    }
  }

  lemma ColumnsInOrder(g: Regs, line: nat, a: nat, b: nat)
    requires Calls(g, line, a) < Calls(g, line, b)
    ensures a < b
  {
  }

  lemma {:induction false} OffUntilSync(s: State, g: Regs, count: nat, lit: bool, even: bool, at: nat, n: nat)
    requires InRange(s) && AtSync(s, g, count, lit, even, at) && n <= at < FrameCalls(g, even) && NoPulse(s)
    ensures NoPulse(After(s, n))
  {
    hide InRange, FrameCalls, AtSync, Generate, NoPulse, Raises;
    if n == 0 {
      NoneYet(s);
    } else {
      OffUntilSync(s, g, count, lit, even, at, n - 1);
      NotRaisedBefore(s, g, count, lit, even, at, n - 1);
      StaysOff(After(s, n - 1));
    }
  }

  lemma SyncRaises(s: State, g: Regs, count: nat, lit: bool, even: bool, at: nat)
    requires InRange(s) && AtSync(s, g, count, lit, even, at) && at < FrameCalls(g, even) && NoPulse(s)
    ensures Raises(After(s, at)) && After(s, at).regs == g && After(s, at).scan.beam.col == SyncCol(g, even)
    ensures 2 <= g.horzTotal
  {
    HasColumns(g);
    hide InRange, FrameCalls, At, CallsTo, Rank, After, Timed, DummyDue;
    var p := Main(g.vsyncPos, 0, SyncCol(g, even));
    RankIs(g, g.vsyncPos, 0, SyncCol(g, even));
    PlaceReached(s, g, p, at, count, lit);
    AtColumn(After(s, at), g, p, count, lit);
    StaysHeld(s, g, count, lit, even, at, at);
    OffUntilSync(s, g, count, lit, even, at, at);
  }

  /**
   * With interlace, in a frame that begins without a pulse, whose sync row lies below the display and the pulse's
   * lines above the frame's end: the pulse is raised in the sync row's first line, at its middle in an even frame and
   * at its start in an odd one, and lasts exactly its width in lines; a width of zero means sixteen lines in an even
   * frame and one call in an odd one.
   */
  lemma InterlacedPulse(s: State, g: Regs, count: nat, lit: bool, even: bool, at: nat, n: nat)
    requires InRange(s) && AtSync(s, g, count, lit, even, at) && NoPulse(s)
    requires n == PulseCalls(g, SyncCol(g, even), even) && at + n < FrameCalls(g, even)
    ensures Raises(After(s, at)) && Lasts(After(s, at), n)
  {
    hide Generate, InRange, FrameCalls, AtSync, Lasts, After, Held, Raises, NoPulse, PulseCalls;
    SyncRaises(s, g, count, lit, even, at);
    var t := After(s, at);
    forall m: nat | m <= n ensures Held(After(t, m)) == even {
      StaysHeld(s, g, count, lit, even, at, at + m);
      AfterMore(s, at, m);
    }
    PulseLasts(t, g, even);
  }

  lemma HasColumns(g: Regs)
    requires Timed(g)
    ensures 2 <= g.horzTotal
  {
  }

  // ---------------------------------------------------------------- a width of zero

  /** The next call finds an even frame's dummy raster due: the frame count is odd once R6 has been looked for. */
  predicate ComesEven(s: State) {
    var met := s.regs.vsyncPos == s.regs.vertDisp && !s.scan.opening.firstLine && s.enable.vsync;
    s.regs.mode % 2 == 1 && (s.field.count % 2 == 1) != met
  }

  /**
   * A pulse of width zero ends at the call after the one that raises it if and only if that was not at the last
   * column, and the frame does not come to hold changes to the middle of a line or that is where the next call is.
   */
  lemma ZeroWidthEndsAtOnce(s: State)
    requires InRange(s) && Raises(s) && s.scan.beam.col <= s.regs.horzTotal && s.regs.vsyncWidth == 0
    ensures Ends(Generate(s)) <==>
            s.scan.beam.col < s.regs.horzTotal && (ComesEven(s) ==> s.scan.beam.col + 1 == Half(s.regs))
  {
    RaisedBeats(s);
    if s.scan.beam.col < s.regs.horzTotal {
      FieldAtSync(s);
    }
    hide Generate, Raises, InRange, ComesEven;
  }

  lemma FieldAtSync(s: State)
    requires InRange(s) && s.scan.beam.row == s.regs.vsyncPos && s.scan.beam.col < s.regs.horzTotal
    ensures Held(Generate(s)) == ComesEven(s)
  {
    hide Output, NextV, NextH, NextEnable, NextFetch, NextEnding, VsyncNow;
  }

  /** Registers for a 40 by 32 picture of eight-line rows, with a sync width of zero. */
  function Zero(mode: nat, sync: nat): Regs {
    Regs(63, 40, 51, 4, 0, 38, 0, 32, sync, mode, 0, 7, 0)
  }

  /** The chip just reset, with that frame count. */
  function JustReset(g: Regs, count: nat): State {
    Reset(POWER_ON.(regs := g, field := Field(count, false)))
  }

  lemma ResetIsReady(g: Regs, count: nat)
    requires Timed(g) && 1 <= g.vertDisp
    ensures var s := JustReset(g, count); InRange(s) && NoPulse(s) && At(s, g, ORIGIN, count, false)
  {
    ResetAtOrigin(POWER_ON.(regs := g, field := Field(count, false)), g);
  }

  /** Without interlace a chip just reset with the sync in the first row gives it for one call. */
  lemma OneCallPulse()
    ensures var s := JustReset(Zero(0, 0), 0); InRange(s) && Raises(s) && Lasts(s, 1)
  {
    var g := Zero(0, 0);
    ResetIsReady(g, 0);
    hide Lasts;
    PlainPulse(JustReset(g, 0), g);
  }

  /** With interlace a chip just reset after an odd number of frames gives it for sixteen lines, in row 34. */
  lemma SixteenLinePulse()
    ensures var s := JustReset(Zero(1, 34), 1);
            InRange(s) && Raises(After(s, 17439)) && Lasts(After(s, 17439), 16 * 64)
  {
    var g := Zero(1, 34);
    ResetIsReady(g, 1);
    hide Lasts, After, Raises, At, InRange;
    FrameCallsIs(g, true);
    InterlacedPulse(JustReset(g, 1), g, 1, false, true, 17439, 16 * 64);
  }
}
