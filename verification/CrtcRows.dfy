// What a character row sees: one vertical sync pulse at most, the rasters of interlaced sync and video, and what a
// reset or a new frame leaves of a pulse in progress.

module CrtcRows {
  import opened CrtcSpec
  import opened CrtcFrames
  import opened CrtcPulses
  import Display = CrtcDisplay
  import Division

  // ---------------------------------------------------------------- one pulse a row

  /** The call ends the row, or the frame with it. */
  predicate EndsTheRow(s: State) {
    EndsLine(s.regs, s.scan.beam) && (Wraps(s.regs, s.scan, s.field.dummyDue) || EndsRow(s.regs, s.scan))
  }

  lemma HadMoves(s: State)
    requires InRange(s)
    ensures Generate(s).v.had == ((s.v.had || Raises(s)) && !EndsTheRow(s))
    ensures Raises(s) ==> !s.v.had && s.scan.beam.row == s.regs.vsyncPos
  {
    hide Output, NextEnable, FieldAfter, NextScan, NextH, Wraps, EndsRow, VsyncMayChange;
  }

  /** After a pulse in a row no other is raised before the row ends, however short the pulse. */
  lemma {:induction false} OnePulseARow(s: State, n: nat)
    requires InRange(s) && Raises(s) && 0 < n
    requires forall m: nat | m < n :: !EndsTheRow(After(s, m))
    ensures After(s, n).v.had && !Raises(After(s, n))
  {
    hide Generate, InRange, Raises, EndsTheRow;
    if n == 1 {
      NoneYet(s);
      HadMoves(s);
    } else {
      OnePulseARow(s, n - 1);
      HadMoves(After(s, n - 1));
    }
    HadMoves(After(s, n));
  }

  function PlaceFrom(g: Regs, p: Place, n: nat): Place {
    if n == 0 then p else NextPlace(g, PlaceFrom(g, p, n - 1), false)
  }

  lemma PlainCall(s: State, g: Regs, p: Place)
    requires Timed(g) && g.mode % 2 == 0 && At(s, g, p, 0, true)
    ensures At(Generate(s), g, NextPlace(g, p, false), 0, true)
  {
    CallMoves(s, g, p, 0, true);
    hide NextPlace, Generate, Holds, InRange, Within, Timed;
  }

  /** Where the beam stands in the row that has the pulse, the pulse has been raised. */
  ghost predicate Spent(s: State, g: Regs, p: Place) {
    p.Main? && p.row == g.vsyncPos && p != Main(g.vsyncPos, 0, 0) ==> s.v.had
  }

  lemma SpentMoves(s: State, g: Regs, p: Place)
    requires Timed(g) && g.mode % 2 == 0 && At(s, g, p, 0, true)
    requires Spent(s, g, p) && (p == Main(g.vsyncPos, 0, 0) ==> Raises(s))
    ensures Spent(Generate(s), g, NextPlace(g, p, false))
  {
    hide Generate, Raises, EndingAt, FetchAt, EndsTheRow, InRange, Timed;
    HadMoves(s);
    StaysInRow(s, g, p);
  }

  lemma StaysInRow(s: State, g: Regs, p: Place)
    requires Timed(g) && g.mode % 2 == 0 && At(s, g, p, 0, true)
    ensures var q := NextPlace(g, p, false);
            EndsTheRow(s) ==> !q.Main? || (q.raster == 0 && q.col == 0)
    ensures var q := NextPlace(g, p, false);
            q.Main? && !(q.raster == 0 && q.col == 0) ==> p.Main? && p.row == q.row
  {
    BeamMoves(g, s.scan, p, s.field.dummyDue, false);
    hide FetchAt, Wraps, InRange, NextBeam;
  }

  lemma RaisesThere(s: State, g: Regs)
    requires Timed(g) && g.mode % 2 == 0 && g.vsyncPos <= g.vertTotal
    requires At(s, g, Main(g.vsyncPos, 0, 0), 0, true) && !s.v.on && !s.v.had
    ensures Raises(s)
  {
    hide EndingAt, FetchAt, InRange, Timed;
  }

  /**
   * Without interlace, from a place that finds no pulse on at the start of row R7: that call raises one, and none is
   * raised again until the beam is back there.
   */
  lemma {:induction false} SyncOnceAFrame(s: State, g: Regs, n: nat)
    requires Timed(g) && g.mode % 2 == 0 && g.vsyncPos <= g.vertTotal < 127
    requires At(s, g, Main(g.vsyncPos, 0, 0), 0, true) && !s.v.on && !s.v.had
    requires forall m: nat | 0 < m <= n :: PlaceFrom(g, Main(g.vsyncPos, 0, 0), m) != Main(g.vsyncPos, 0, 0)
    ensures InRange(s)
    ensures var t, p := After(s, n), PlaceFrom(g, Main(g.vsyncPos, 0, 0), n);
            At(t, g, p, 0, true) && Spent(t, g, p) && (Raises(t) <==> n == 0)
  {
    hide NextPlace, Generate, Raises, Timed, At;
    AtWithin(s, g, Main(g.vsyncPos, 0, 0), 0, true);
    if n == 0 {
      NoneYet(s);
      RaisesThere(s, g);
    } else {
      SyncOnceAFrame(s, g, n - 1);
      PlainCall(After(s, n - 1), g, PlaceFrom(g, Main(g.vsyncPos, 0, 0), n - 1));
      SpentMoves(After(s, n - 1), g, PlaceFrom(g, Main(g.vsyncPos, 0, 0), n - 1));
      NotRaised(After(s, n), g, PlaceFrom(g, Main(g.vsyncPos, 0, 0), n));
    }
  }

  lemma NotRaised(s: State, g: Regs, p: Place)
    requires g.vsyncPos <= g.vertTotal < 127 && p != Main(g.vsyncPos, 0, 0)
    requires At(s, g, p, 0, true) && Spent(s, g, p)
    ensures !Raises(s)
  {
    HadMoves(s);
    hide EndingAt, FetchAt, InRange, Raises, EndsTheRow;
  }

  /** A row begins with the pulse of its own still to come. */
  lemma RowForgets(s: State, g: Regs, p: Place)
    requires Timed(g) && g.mode % 2 == 0 && At(s, g, p, 0, true) && p.col == g.horzTotal
    requires NextPlace(g, p, false).Main? && NextPlace(g, p, false).raster == 0
    ensures !Generate(s).v.had
  {
    HadMoves(s);
    BeamMoves(g, s.scan, p, s.field.dummyDue, false);
    hide FetchAt, Generate, Raises, NextBeam, Wraps, InRange;
  }

  // ---------------------------------------------------------------- interlaced sync and video

  /** No latch of the frame's end is set, and the end is not met in this row. */
  predicate InPicture(s: State) {
    var e := s.scan.ending;
    !e.ofMain && !e.ofAdjust && !e.ofFrame && !e.inAdjust && s.scan.beam.row < s.regs.vertTotal
  }

  /** So many calls into a row of the mode whose rasters go up by two. */
  ghost predicate InTwos(s: State, g: Regs, row: nat, calls: nat) {
    && s.regs == g && InPicture(s)
    && s.scan.beam == Beam(calls % (g.horzTotal + 1), row, calls / (g.horzTotal + 1) * 2 % 32)
  }

  lemma TwosMove(s: State, g: Regs, row: nat, calls: nat)
    requires InRange(s) && g.mode == 3 && InTwos(s, g, row, calls)
    requires s.scan.beam.col == g.horzTotal ==> s.scan.beam.raster != g.rasters
    ensures InTwos(Generate(s), g, row, calls + 1)
  {
    BeamInTwosAt(s, g, calls);
    hide Generate, InRange, InPicture;
    TwosCount(g.horzTotal + 1, calls);
  }

  lemma BeamInTwosAt(s: State, g: Regs, calls: nat)
    requires InRange(s) && g.mode == 3 && InTwos(s, g, s.scan.beam.row, calls)
    requires s.scan.beam.col == g.horzTotal ==> s.scan.beam.raster != g.rasters
    ensures var m, t := s.scan.beam, Generate(s);
            && t.regs == g && InPicture(t)
            && t.scan.beam == if m.col == g.horzTotal then Beam(0, m.row, (m.raster + 2) % 32 / 2 * 2)
                              else m.(col := m.col + 1)
  {
    hide Generate, InRange;
    BeamInTwos(s);
  }

  /** One call more: the remainder and the doubled quotient. */
  lemma TwosCount(w: nat, calls: nat)
    requires 0 < w
    ensures var ends := calls % w == w - 1;
            && (calls + 1) % w == (if ends then 0 else calls % w + 1)
            && (calls + 1) / w * 2 % 32 == if ends then (calls / w * 2 % 32 + 2) % 32 / 2 * 2 else calls / w * 2 % 32
  {
    Division.OneMore(calls + 1, w);
    TwoUp(calls / w);
  }

  lemma TwoUp(n: nat)
    ensures (n * 2 % 32 + 2) % 32 / 2 * 2 == (n + 1) * 2 % 32
  {
  }

  lemma BeamInTwos(s: State)
    requires InRange(s) && s.regs.mode == 3 && InPicture(s) && s.scan.beam.col <= s.regs.horzTotal
    ensures var m, t := s.scan.beam, Generate(s);
            && t.regs == s.regs
            && (m.col < s.regs.horzTotal ==> t.scan.beam == m.(col := m.col + 1) && InPicture(t))
            && (m.col == s.regs.horzTotal && m.raster != s.regs.rasters ==>
                  t.scan.beam == Beam(0, m.row, (m.raster + 2) % 32 / 2 * 2) && InPicture(t))
            && (m.col == s.regs.horzTotal && m.raster == s.regs.rasters ==> t.scan.beam == Beam(0, m.row + 1, 0))
  {
    hide NextV, NextH, NextEnable, FieldAfter, Output, NextFetch, NextOpening;
  }

  /** Lines of a row: one for every other raster up to an even R9. */
  function RowLines(g: Regs): nat {
    g.rasters / 2 + 1
  }

  /**
   * With R8 at 3 a row shows every other raster. Where R9 is even it has R9/2 + 1 lines and the next row follows; where
   * R9 is odd the raster counter never meets it, and the row never ends.
   */
  lemma {:induction false} RowsInTwos(s: State, g: Regs, row: nat, calls: nat, all: nat)
    requires InRange(s) && g.mode == 3 && InTwos(s, g, row, 0) && all == RowLines(g) * (g.horzTotal + 1)
    requires g.rasters % 2 == 0 ==> calls <= all
    ensures var t := After(s, calls);
            if g.rasters % 2 == 0 && calls == all then t.scan.beam == Beam(0, row + 1, 0) else InTwos(t, g, row, calls)
  {
    assert s.regs == g && g.rasters < 32;
    hide Generate, InTwos, InRange, RowLines;
    if calls == 0 {
      NoneYet(s);
      SomeLines(g);
    } else {
      RowsInTwos(s, g, row, calls - 1, all);
      var t := After(s, calls - 1);
      assert After(s, calls) == Generate(t);
      hide After;
      OneMoreInTwos(t, g, row, calls, all);
    }
  }

  lemma SomeLines(g: Regs)
    ensures 0 < RowLines(g) * (g.horzTotal + 1)
  {
    Division.MultiplesGrow(g.horzTotal + 1, 0, RowLines(g));
  }

  lemma OneMoreInTwos(t: State, g: Regs, row: nat, calls: nat, all: nat)
    requires InRange(t) && g.mode == 3 && g.rasters < 32 && 0 < calls && InTwos(t, g, row, calls - 1)
    requires all == RowLines(g) * (g.horzTotal + 1) && (g.rasters % 2 == 0 ==> calls <= all)
    ensures if g.rasters % 2 == 0 && calls == all then Generate(t).scan.beam == Beam(0, row + 1, 0)
            else InTwos(Generate(t), g, row, calls)
  {
    hide Generate, InTwos, InRange;
    RasterThere(t, g, row, calls - 1);
    if g.rasters % 2 == 0 && calls == all {
      LastLine(g.rasters, g.horzTotal + 1);
      LastOfRow(t, g, row, calls - 1);
    } else {
      if g.rasters % 2 == 0 {
        NotYetLast(g.rasters, g.horzTotal + 1, calls);
      }
      TwosMove(t, g, row, calls - 1);
    }
  }

  lemma RasterThere(s: State, g: Regs, row: nat, calls: nat)
    requires InTwos(s, g, row, calls)
    ensures s.scan.beam.col == calls % (g.horzTotal + 1)
    ensures s.scan.beam.raster == calls / (g.horzTotal + 1) * 2 % 32 && s.scan.beam.raster % 2 == 0
  {
  }

  lemma LastLine(rasters: nat, w: nat)
    requires 0 < w && rasters % 2 == 0
    ensures ((rasters / 2 + 1) * w - 1) / w == rasters / 2 && ((rasters / 2 + 1) * w - 1) % w == w - 1
  {
    assert (rasters / 2 + 1) * w - 1 == w * (rasters / 2) + (w - 1);
    Division.QuotientIs((rasters / 2 + 1) * w - 1, w, rasters / 2, w - 1);
  }

  lemma NotYetLast(rasters: nat, w: nat, calls: nat)
    requires 0 < w && rasters % 2 == 0 && 0 < calls < (rasters / 2 + 1) * w && rasters < 32
    ensures (calls - 1) % w == w - 1 ==> (calls - 1) / w * 2 % 32 != rasters
  {
    var q := (calls - 1) / w;
    if (calls - 1) % w == w - 1 {
      assert calls == w * (q + 1);
      Between(w, q + 1, rasters / 2 + 1);
    }
  }

  lemma LastOfRow(s: State, g: Regs, row: nat, calls: nat)
    requires InRange(s) && g.mode == 3 && InTwos(s, g, row, calls)
    requires calls % (g.horzTotal + 1) == g.horzTotal && calls / (g.horzTotal + 1) * 2 % 32 == g.rasters
    ensures Generate(s).scan.beam == Beam(0, row + 1, 0)
  {
    BeamInTwos(s);
    hide Generate;
  }

  // ---------------------------------------------------------------- pulses across a reset and a new frame

  /** A reset in a pulse starts its length again: HSYNC's in characters and VSYNC's in lines. */
  lemma ResetRestartsPulses(s: State)
    requires InRange(s)
    ensures Reset(s).h.on == s.h.on && Display.Left(s.regs, Reset(s).h) == Display.Width(s.regs)
    ensures s.v.on && s.v.irq ==> Pulsing(Reset(s), s.regs, 0)
  {
    Division.QuotientIs(0, Wide(s.regs), 0, 0);
  }

  /** A frame begins with no dummy raster due, but in a pulse, or where its first row is R6 or R7. */
  lemma NewFrameIsNotDue(s: State)
    requires InRange(s) && Generate(s).scan.opening.ofFrame && Generate(s).scan.beam.row == 0
    requires s.regs.vertDisp != 0 && s.regs.vsyncPos != 0
    ensures Generate(s).field.dummyDue ==> s.field.dummyDue && VsyncNow(s.regs, s.scan.beam, s.v, true).on
  {
    hide Output, NextV, NextH, NextEnable, NextScan, VsyncNow;
  }
}
