// What follows a reset of the CRTC: a whole frame, or where the reset found the end of the frame latched, a frame of
// no more than the vertical adjust lines.

module CrtcResets {
  import opened CrtcSpec
  import opened CrtcFrames
  import opened Division

  /** The next frame opens after exactly so many calls. */
  ghost predicate NextFrameIn(s: State, calls: nat)
    requires InRange(s)
  {
    && 0 < calls && After(s, calls).scan.opening.ofFrame
    && forall n | 0 < n < calls :: !After(s, n).scan.opening.ofFrame
  }

  lemma NextFrameOnce(s: State, a: nat, b: nat)
    requires InRange(s) && NextFrameIn(s, a) && NextFrameIn(s, b)
    ensures a == b
  {
  }

  /** The end of the frame is latched: past the second character of the picture's last line. */
  predicate TooLate(g: Regs, p: Place) {
    p.Main? ==> Last(g, p) && 2 <= p.col
  }

  // ---------------------------------------------------------------- a whole frame

  /** A check of the vertical adjust counter that is due at the reset does nothing before the picture's end. */
  lemma CheckIsIdle(s: State)
    requires InRange(s) && !s.scan.ending.ofMain
    ensures InRange(s.(scan := s.scan.(ending := s.scan.ending.(check := false))))
    ensures Generate(s) == Generate(s.(scan := s.scan.(ending := s.scan.ending.(check := false))))
  {
    var g, k, due := s.regs, s.scan, s.field.dummyDue;
    var k' := k.(ending := k.ending.(check := false));
    assert EndingNow(g, k.beam, k.ending) == EndingNow(g, k.beam, k'.ending);
    hide EndingNow, Output, NextEnable, EnableMoved, FieldAfter, NextH, NextV, VsyncNow, NextFetch;
    SameScan(g, k, k', due);
    SamePulse(g, k, k', s.v, due);
    SameEnable(g, k, k', s.enable, due);
  }

  lemma SameScan(g: Regs, k: Scan, k': Scan, due: bool)
    requires k' == k.(ending := k'.ending) && EndingNow(g, k.beam, k.ending) == EndingNow(g, k.beam, k'.ending)
    requires k'.ending.inAdjust == k.ending.inAdjust
    ensures NextScan(g, k, due) == NextScan(g, k', due) && Wraps(g, k, due) == Wraps(g, k', due)
  {
    hide EndingNow;
  }

  lemma SamePulse(g: Regs, k: Scan, k': Scan, v: VPulse, due: bool)
    requires k' == k.(ending := k'.ending) && Wraps(g, k, due) == Wraps(g, k', due)
    requires k'.ending.inAdjust == k.ending.inAdjust
    ensures NextV(g, k, v, due) == NextV(g, k', v, due)
  {
    hide Wraps;
  }

  lemma SameEnable(g: Regs, k: Scan, k': Scan, e: Enable, due: bool)
    requires k' == k.(ending := k'.ending) && NextScan(g, k, due) == NextScan(g, k', due)
    ensures NextEnable(g, k, e, due) == NextEnable(g, k', e, due)
    ensures EnableMoved(g, k, e, due) == EnableMoved(g, k', e, due)
  {
    hide NextScan;
  }

  lemma {:induction false} SameFromFirstCall(s: State, t: State, n: nat)
    requires InRange(s) && InRange(t) && Generate(s) == Generate(t) && 0 < n
    ensures After(s, n) == After(t, n)
  {
    hide Generate, InRange;
    if n > 1 {
      SameFromFirstCall(s, t, n - 1);
    }
  }

  lemma WholeFrame(s: State, g: Regs, p: Place, count: nat, lit: bool)
    requires Timed(g) && At(s, g, p, count, lit) && !TooLate(g, p)
    ensures InRange(Reset(s)) && NextFrameIn(Reset(s), FrameCalls(g, DummyDue(g, s.field.count, false)))
  {
    var r := Reset(s);
    var t := r.(scan := r.scan.(ending := r.scan.ending.(check := false)));
    var n := FrameCalls(g, DummyDue(g, s.field.count, false));
    EarlyReset(s, g, p, count, lit);
    hide Generate, At, InRange, FrameCalls, TooLate, Timed, Reset;
    CheckIsIdle(r);
    FrameTakes(t, g, s.field.count, false);
    FrameIsSome(g, DummyDue(g, s.field.count, false));
    forall m | 0 < m <= n ensures After(r, m) == After(t, m) {
      SameFromFirstCall(r, t, m);
    }
    OpensAtOrigin(After(t, n), g, CountAfter(s.field.count, false), true);
  }

  lemma EarlyReset(s: State, g: Regs, p: Place, count: nat, lit: bool)
    requires Timed(g) && At(s, g, p, count, lit) && !TooLate(g, p)
    ensures var r := Reset(s);
            && InRange(r) && !r.scan.ending.ofMain
            && At(r.(scan := r.scan.(ending := r.scan.ending.(check := false))), g, ORIGIN, s.field.count, false)
  {
  }

  lemma FrameIsSome(g: Regs, dummy: bool)
    ensures 0 < FrameCalls(g, dummy)
  {
    OriginWithin(g);
    hide FrameCalls, CallsTo;
    PlaceMoves(g, ORIGIN, dummy);
  }

  lemma OpensAtOrigin(s: State, g: Regs, count: nat, lit: bool)
    requires At(s, g, ORIGIN, count, lit)
    ensures s.scan.opening.ofFrame
  {
  }

  // ---------------------------------------------------------------- a short frame

  /** Lines of a short frame but for the dummy raster, by what the reset found latched. */
  function LateLines(g: Regs, p: Place): nat
    requires TooLate(g, p)
  {
    match p
    case Main(_, _, c) => if c > 2 || g.vertAdjust == 0 then g.vertAdjust + 1 else g.vertAdjust
    case Adjust(l, c) =>
      if c > 2 && l + 1 == g.vertAdjust then 1 else if c == 2 then g.vertAdjust else g.vertAdjust + 1
    case Dummy(_) => 1
  }

  /** With the dummy raster, if there is to be one and the reset did not come within it. */
  function ShortLines(g: Regs, p: Place, dummy: bool): nat
    requires TooLate(g, p)
  {
    LateLines(g, p) + if dummy && !p.Dummy? then 1 else 0
  }

  /** How a short frame goes: its lines, whether the check comes early, whether the end is latched from the start. */
  datatype Course = Course(lines: nat, ahead: bool, latched: bool, dummy: bool)

  predicate Possible(g: Regs, x: Course) {
    x.lines == if x.latched then 1 else if x.ahead && 0 < g.vertAdjust then g.vertAdjust else g.vertAdjust + 1
  }

  /** Whether the end of vertical adjust is latched at a column of a line. */
  predicate EndLatched(g: Regs, x: Course, line: nat, col: nat) {
    x.latched || (line + 1 == x.lines && (2 < col || (x.ahead && g.vertAdjust == 0 && 0 < col)))
  }

  /** The vertical adjust counter there, while it matters. */
  function Counter(x: Course, line: nat, col: nat): nat {
    line + (if x.ahead && 0 < line + col then 1 else 0) + if 2 < col then 1 else 0
  }

  /** The latches and counters within the lines of a short frame. */
  predicate LateScan(g: Regs, k: Scan, x: Course, line: nat, col: nat) {
    && k.beam == Beam(col, 0, line) && k.opening.ofFrame == (line == 0 && col == 0)
    && k.ending.ofMain && !k.ending.ofFrame && (0 < line ==> k.ending.inAdjust)
    && k.ending.check == (col == 2 || (x.ahead && line == 0 && col == 0))
    && k.ending.ofAdjust == EndLatched(g, x, line, col)
    && (!k.ending.ofAdjust ==> k.ending.lines == Counter(x, line, col))
  }

  /** The parity that decides the dummy raster. */
  predicate LateField(g: Regs, f: Field, x: Course) {
    if g.mode == 1 then f.dummyDue == x.dummy && (f.count % 2 == 1) == x.dummy else !x.dummy
  }

  ghost predicate Late(s: State, g: Regs, x: Course, line: nat, col: nat) {
    && s.regs == g && InRange(s) && line < x.lines && col <= g.horzTotal
    && LateScan(g, s.scan, x, line, col) && LateField(g, s.field, x)
  }

  /** Within the dummy raster. */
  predicate DummyScan(k: Scan, col: nat) {
    k.beam.col == col && k.ending.ofAdjust && k.ending.ofFrame
  }

  predicate Rows(g: Regs) {
    1 <= g.vertTotal && 1 <= g.rasters
  }

  lemma ScanMoves(g: Regs, k: Scan, x: Course, line: nat, col: nat, due: bool)
    requires Timed(g) && Rows(g) && Possible(g, x) && line < x.lines && col < g.horzTotal
    requires LateScan(g, k, x, line, col)
    ensures LateScan(g, NextScan(g, k, due), x, line, col + 1)
  {
    hide NextFetch;
  }

  /** Frames are counted only where R6 is met, which is below these lines. */
  lemma FieldStays(g: Regs, k: Scan, e: Enable, v: VPulse, f: Field, x: Course)
    requires Timed(g) && LateField(g, f, x) && k.beam.row == 0 && !k.opening.ofFrame
    ensures LateField(g, FieldAfter(g, k, e, v, f), x)
  {
  }

  /** A call within a line. */
  lemma LateMoves(s: State, g: Regs, x: Course, line: nat, col: nat)
    requires Timed(g) && Rows(g) && Possible(g, x) && Late(s, g, x, line, col) && col < g.horzTotal
    ensures Late(Generate(s), g, x, line, col + 1)
  {
    ScanMoves(g, s.scan, x, line, col, s.field.dummyDue);
    hide Output, NextV, NextH, NextEnable, EnableMoved, NextScan, FieldAfter, VsyncNow, InRange, LateField;
    FieldStays(g, NextScan(g, s.scan, s.field.dummyDue), EnableMoved(g, s.scan, s.enable, s.field.dummyDue),
               VsyncNow(g, s.scan.beam, s.v, s.field.dummyDue), s.field, x);
  }

  /** The end of a line that is not the last of them. */
  lemma ScanTurns(g: Regs, k: Scan, x: Course, line: nat, due: bool)
    requires Timed(g) && Rows(g) && Possible(g, x) && line + 1 < x.lines && LateScan(g, k, x, line, g.horzTotal)
    ensures LateScan(g, NextScan(g, k, due), x, line + 1, 0)
  {
    hide NextFetch;
  }

  lemma LateTurns(s: State, g: Regs, x: Course, line: nat)
    requires Timed(g) && Rows(g) && Possible(g, x) && line + 1 < x.lines && Late(s, g, x, line, g.horzTotal)
    ensures Late(Generate(s), g, x, line + 1, 0)
  {
    ScanTurns(g, s.scan, x, line, s.field.dummyDue);
    hide Output, NextV, NextH, NextEnable, EnableMoved, NextScan, FieldAfter, VsyncNow, InRange, LateField;
    FieldStays(g, NextScan(g, s.scan, s.field.dummyDue), EnableMoved(g, s.scan, s.enable, s.field.dummyDue),
               VsyncNow(g, s.scan.beam, s.v, s.field.dummyDue), s.field, x);
  }

  /** The end of the last of them opens the next frame, or the dummy raster. */
  lemma LateEnds(s: State, g: Regs, x: Course)
    requires Timed(g) && Rows(g) && Possible(g, x) && Late(s, g, x, x.lines - 1, g.horzTotal)
    ensures if x.dummy then DummyScan(Generate(s).scan, 0) else EndingNow(g, s.scan.beam, s.scan.ending).ofAdjust
    ensures Generate(s).scan.opening.ofFrame == !x.dummy
  {
    hide Output, NextV, NextH, NextEnable, EnableMoved, FieldAfter, VsyncNow, NextFetch;
  }

  lemma DummyMoves(s: State, g: Regs, col: nat)
    requires Timed(g) && InRange(s) && s.regs == g && DummyScan(s.scan, col) && col <= g.horzTotal
    ensures Generate(s).scan.opening.ofFrame == (col == g.horzTotal)
    ensures col < g.horzTotal ==> DummyScan(Generate(s).scan, col + 1)
  {
    hide Output, NextV, NextH, NextEnable, EnableMoved, FieldAfter, VsyncNow, NextFetch;
  }

  /** The call that opens a frame leaves every counter and latch at the frame's origin, the display lit. */
  lemma OpensAFrame(s: State, g: Regs)
    requires Timed(g) && InRange(s) && s.regs == g && s.scan.beam.col == g.horzTotal
    requires Generate(s).scan.opening.ofFrame && EndingNow(g, s.scan.beam, s.scan.ending).ofAdjust
    ensures At(Generate(s), g, ORIGIN, Generate(s).field.count, true)
  {
    hide Output, NextV, NextH, VsyncNow;
  }

  // ---------------------------------------------------------------- the calls of a short frame

  lemma {:induction false} LateReaches(s: State, g: Regs, x: Course, line: nat, col: nat)
    requires Timed(g) && Rows(g) && Possible(g, x) && InRange(s) && Late(s, g, x, 0, 0)
    requires line < x.lines && col <= g.horzTotal
    ensures Late(After(s, Calls(g, line, col)), g, x, line, col)
    decreases line, col
  {
    hide Late, Generate, Timed, InRange, Possible, Rows, Calls;
    if col > 0 {
      CallsStep(g, line, col - 1);
      LateReaches(s, g, x, line, col - 1);
      LateMoves(After(s, Calls(g, line, col - 1)), g, x, line, col - 1);
    } else if line > 0 {
      LineBreak(g, line - 1);
      LateReaches(s, g, x, line - 1, g.horzTotal);
      LateTurns(After(s, Calls(g, line - 1, g.horzTotal)), g, x, line - 1);
    } else {
      FirstCall(g);
      NoneYet(s);
    }
  }

  lemma FirstCall(g: Regs)
    ensures Calls(g, 0, 0) == 0
  {
  }

  lemma CallOf(g: Regs, n: nat)
    ensures n / (g.horzTotal + 1) >= 0 && n % (g.horzTotal + 1) <= g.horzTotal
    ensures n == Calls(g, n / (g.horzTotal + 1), n % (g.horzTotal + 1))
  {
  }

  lemma {:induction false} DummyReaches(s: State, g: Regs, col: nat)
    requires Timed(g) && InRange(s) && s.regs == g && DummyScan(s.scan, 0) && col <= g.horzTotal
    ensures DummyScan(After(s, col).scan, col) && (0 < col ==> !After(s, col).scan.opening.ofFrame)
  {
    hide Generate, Timed, InRange, DummyScan;
    if col == 0 {
      NoneYet(s);
    } else {
      DummyReaches(s, g, col - 1);
      RegsStay(s, col - 1);
      DummyMoves(After(s, col - 1), g, col - 1);
    }
  }

  /** A dummy raster is one line. */
  lemma DummyRuns(s: State, g: Regs)
    requires Timed(g) && InRange(s) && s.regs == g && DummyScan(s.scan, 0)
    ensures NextFrameIn(s, g.horzTotal + 1)
    ensures var t := After(s, g.horzTotal + 1); At(t, g, ORIGIN, t.field.count, true)
  {
    hide Generate, Timed, InRange, At, EndingNow;
    var last := After(s, g.horzTotal);
    forall n | 0 < n < g.horzTotal + 1 ensures !After(s, n).scan.opening.ofFrame {
      DummyReaches(s, g, n);
    }
    DummyReaches(s, g, g.horzTotal);
    RegsStay(s, g.horzTotal);
    DummyMoves(last, g, g.horzTotal);
    StillLatched(g, last.scan);
    OpensAFrame(last, g);
  }

  lemma StillLatched(g: Regs, k: Scan)
    requires k.ending.ofAdjust
    ensures EndingNow(g, k.beam, k.ending).ofAdjust
  {
  }

  /** The lines of a short frame: no frame opens within them. */
  lemma NoneWithin(s: State, g: Regs, x: Course, n: nat)
    requires Timed(g) && Rows(g) && Possible(g, x) && InRange(s) && Late(s, g, x, 0, 0)
    requires 0 < n < Calls(g, x.lines, 0)
    ensures !After(s, n).scan.opening.ofFrame
  {
    hide Generate, Timed, InRange, Possible, Rows, Calls;
    var w := g.horzTotal + 1;
    var line, col := n / w, n % w;
    CallOf(g, n);
    if x.lines <= line {
      CallsPastStart(g, line, col);
      if x.lines < line {
        CallsGrow(g, x.lines, line, 0);
      }
    }
    FirstCall(g);
    LateReaches(s, g, x, line, col);
  }

  lemma FramesJoin(s: State, a: nat, b: nat)
    requires InRange(s) && (forall n | 0 < n <= a :: !After(s, n).scan.opening.ofFrame)
    requires NextFrameIn(After(s, a), b)
    ensures NextFrameIn(s, a + b) && After(s, a + b) == After(After(s, a), b)
  {
    hide InRange, After;
    AfterMore(s, a, b);
    forall n | 0 < n < a + b ensures !After(s, n).scan.opening.ofFrame {
      if a < n {
        AfterMore(s, a, n - a);
      }
    }
  }

  /** Before the last call of those lines. */
  lemma LateBeforeLast(s: State, g: Regs, x: Course, a: nat)
    requires Timed(g) && Rows(g) && Possible(g, x) && InRange(s) && Late(s, g, x, 0, 0)
    requires a == Calls(g, x.lines, 0)
    ensures 0 < x.lines && 0 < a && Late(After(s, a - 1), g, x, x.lines - 1, g.horzTotal)
  {
    SomeLines(g, x);
    hide After, Timed, InRange, Possible, Rows, Calls, Late;
    LastCallIs(g, x.lines, a);
    LateReaches(s, g, x, x.lines - 1, g.horzTotal);
  }

  lemma LastCallIs(g: Regs, lines: nat, a: nat)
    requires 0 < lines && a == Calls(g, lines, 0)
    ensures 0 < a && a - 1 == Calls(g, lines - 1, g.horzTotal)
  {
    hide Calls;
    LineBreak(g, lines - 1);
  }

  /** What a call leaves that ends them. */
  lemma LateToNext(t: State, g: Regs, x: Course)
    requires Timed(g) && Rows(g) && Possible(g, x) && InRange(t) && 0 < x.lines
    requires Late(t, g, x, x.lines - 1, g.horzTotal)
    ensures Generate(t).regs == g && Generate(t).scan.opening.ofFrame == !x.dummy
    ensures if x.dummy then DummyScan(Generate(t).scan, 0)
            else At(Generate(t), g, ORIGIN, Generate(t).field.count, true)
  {
    LateEnds(t, g, x);
    OneCallKeepsRegs(t);
    LateThere(t, g, x);
    hide Generate, Timed, InRange, Possible, Rows, Late, At, EndingNow, DummyScan;
    if !x.dummy {
      OpensAFrame(t, g);
    }
  }

  lemma LateThere(t: State, g: Regs, x: Course)
    requires 0 < x.lines && Late(t, g, x, x.lines - 1, g.horzTotal)
    ensures t.regs == g && t.scan.beam.col == g.horzTotal
  {
  }

  /** The last call of those lines. */
  lemma LateLast(s: State, g: Regs, x: Course, a: nat)
    requires Timed(g) && Rows(g) && Possible(g, x) && InRange(s) && Late(s, g, x, 0, 0)
    requires a == Calls(g, x.lines, 0)
    ensures 0 < a && After(s, a).regs == g && After(s, a).scan.opening.ofFrame == !x.dummy
    ensures if x.dummy then DummyScan(After(s, a).scan, 0)
            else At(After(s, a), g, ORIGIN, After(s, a).field.count, true)
  {
    hide Generate, Timed, InRange, Possible, Rows, Calls, Late, At, DummyScan;
    LateBeforeLast(s, g, x, a);
    LateToNext(After(s, a - 1), g, x);
  }

  lemma LateRuns(s: State, g: Regs, x: Course)
    requires Timed(g) && Rows(g) && Possible(g, x) && InRange(s) && Late(s, g, x, 0, 0)
    ensures var n := Calls(g, x.lines + if x.dummy then 1 else 0, 0);
            NextFrameIn(s, n) && At(After(s, n), g, ORIGIN, After(s, n).field.count, true)
  {
    hide After, Timed, InRange, Possible, Rows, Calls, At, Late, DummyScan;
    var a := Calls(g, x.lines, 0);
    LateLast(s, g, x, a);
    forall n | 0 < n < a ensures !After(s, n).scan.opening.ofFrame {
      NoneWithin(s, g, x, n);
    }
    if x.dummy {
      DummyRuns(After(s, a), g);
      LineBreak(g, x.lines);
      CallsStepTo(g, x.lines, g.horzTotal);
      FramesJoin(s, a, g.horzTotal + 1);
    }
  }

  lemma SomeLines(g: Regs, x: Course)
    requires Possible(g, x)
    ensures 0 < x.lines
  {
  }

  lemma CallsStepTo(g: Regs, line: nat, col: nat)
    ensures Calls(g, line, col) == Calls(g, line, 0) + col
  {
  }

  // ---------------------------------------------------------------- what a reset does

  lemma LateStarts(s: State, g: Regs, p: Place, count: nat, lit: bool) returns (x: Course)
    requires Timed(g) && At(s, g, p, count, lit) && TooLate(g, p) && !p.Dummy?
    ensures InRange(Reset(s)) && Possible(g, x) && Late(Reset(s), g, x, 0, 0)
    ensures x.lines == LateLines(g, p) && x.dummy == DummyDue(g, count, lit)
  {
    var latched := 2 < p.col && if p.Main? then g.vertAdjust == 0 else p.line + 1 == g.vertAdjust;
    x := Course(LateLines(g, p), p.col == 2, latched, DummyDue(g, count, lit));
  }

  lemma DummyStarts(s: State, g: Regs, p: Place, count: nat, lit: bool)
    requires Timed(g) && At(s, g, p, count, lit) && p.Dummy?
    ensures var r := Reset(s); InRange(r) && r.regs == g && DummyScan(r.scan, 0)
  {
  }

  /** A reset that finds the end of the frame latched is followed by a short frame, and that by whole ones. */
  lemma ResetShortensFrame(s: State, g: Regs, p: Place, count: nat, lit: bool)
    requires Timed(g) && Rows(g) && At(s, g, p, count, lit) && TooLate(g, p)
    ensures InRange(Reset(s))
    ensures var n := Calls(g, ShortLines(g, p, DummyDue(g, count, lit)), 0);
            var t := After(Reset(s), n);
            NextFrameIn(Reset(s), n) && At(t, g, ORIGIN, t.field.count, true)
  {
    hide At, Timed, InRange, Reset, Calls, Late, Possible, NextFrameIn;
    if p.Dummy? {
      DummyStarts(s, g, p, count, lit);
      DummyRuns(Reset(s), g);
      FirstCall(g);
      LineBreak(g, 0);
      CallsStepTo(g, 0, g.horzTotal);
    } else {
      var x := LateStarts(s, g, p, count, lit);
      LateRuns(Reset(s), g, x);
    }
  }

  lemma ShortIsShorter(g: Regs, p: Place, a: bool, b: bool)
    requires Rows(g) && TooLate(g, p)
    ensures Calls(g, ShortLines(g, p, a), 0) < FrameCalls(g, b)
  {
    hide Calls, Lines;
    LinesGrow(g, 0, 1);
    LinesGrow(g, 1, g.vertTotal + 1);
    CallsGrow(g, ShortLines(g, p, a), FrameLines(g, b), 0);
  }

  /**
   * A reset starts a frame: the next one opens after exactly a whole frame's calls, if and only if the reset does not
   * come past the second character of the picture's last line, or in the lines below it.
   */
  lemma ResetStartsFrame(s: State, g: Regs, p: Place, count: nat, lit: bool)
    requires Timed(g) && Rows(g) && At(s, g, p, count, lit)
    ensures InRange(Reset(s))
    ensures NextFrameIn(Reset(s), FrameCalls(g, DummyDue(g, s.field.count, false))) <==>
            p.Main? && !(Last(g, p) && 2 <= p.col)
  {
    hide At, Timed, Reset, Calls, ShortLines, NextFrameIn, FrameCalls, DummyDue, InRange;
    if TooLate(g, p) {
      var whole := FrameCalls(g, DummyDue(g, s.field.count, false));
      var short := Calls(g, ShortLines(g, p, DummyDue(g, count, lit)), 0);
      ResetShortensFrame(s, g, p, count, lit);
      ShortIsShorter(g, p, DummyDue(g, count, lit), DummyDue(g, s.field.count, false));
      if NextFrameIn(Reset(s), whole) {
        NextFrameOnce(Reset(s), whole, short);
      }
    } else {
      WholeFrame(s, g, p, count, lit);
    }
  }
}
