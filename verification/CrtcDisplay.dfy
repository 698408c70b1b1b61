// At which characters the display is enabled, and at which the horizontal sync pulse is on.

module CrtcDisplay {
  import opened CrtcSpec
  import opened CrtcFrames

  // ---------------------------------------------------------------- display enable at a place

  /** Whether something closes a line: it is long enough for the displayed characters and their delay, or has none. */
  predicate Covers(g: Regs) {
    g.horzDisp + g.skew <= g.horzTotal || g.skew == 0
  }

  /** A line of three characters at least. */
  predicate Lined(g: Regs) {
    g.horzTotal < 256 && 2 <= g.horzTotal && g.skew < 3
  }

  /** Column by column: the two bits that open and close the line. */
  predicate AcrossAt(g: Regs, e: Enable, c: nat) {
    e.hsync == (c <= g.horzDisp + g.skew) && e.skew == (Covers(g) ==> g.skew < c <= g.horzDisp + g.skew)
  }

  /** The same in a line that began with those bits anyhow. */
  predicate SettlingAt(g: Regs, e: Enable, c: nat) {
    (g.horzDisp + g.skew < c ==> !e.hsync && !e.skew) && (!Covers(g) && g.skew < c ==> e.skew)
  }

  /** The rows above R6, but the first line always, and all of them where no later line is of row R6. */
  predicate Lit(g: Regs, p: Place) {
    match p
    case Main(r, k, _) => r < g.vertDisp || (r == 0 && k == 0) || (g.vertDisp == 0 && g.rasters == 0)
    case _ => g.vertTotal + 1 < g.vertDisp || (g.vertDisp == 0 && g.rasters == 0 && g.vertTotal < 127)
  }

  /** Line by line: rasters 8 to 15 and 24 to 31 are blank. */
  predicate DownAt(g: Regs, e: Enable, p: Place) {
    e.vsync == Lit(g, p) && e.scanline == (BeamAt(g, p).raster / 8 % 2 == 0)
  }

  predicate DisplayAt(g: Regs, e: Enable, p: Place) {
    AcrossAt(g, e, p.col) && DownAt(g, e, p)
  }

  /** What a call leaves of the horizontal bits. */
  function AcrossNow(g: Regs, m: Beam, e: Enable): Enable {
    var now := EnableNow(g, m, e);
    now.(hsync := EndsLine(g, m) || now.hsync)
  }

  lemma NextAcross(g: Regs, k: Scan, e: Enable, due: bool)
    ensures var n, a := NextEnable(g, k, e, due), AcrossNow(g, k.beam, e);
            n.hsync == a.hsync && n.skew == a.skew && n.user == e.user && n.frameSkip == e.frameSkip
  {
    hide NextScan, DisplayEnds;
  }

  lemma AcrossMoves(g: Regs, m: Beam, e: Enable)
    requires Lined(g) && m.col <= g.horzTotal && AcrossAt(g, e, m.col)
    ensures AcrossAt(g, AcrossNow(g, m, e), if EndsLine(g, m) then 0 else m.col + 1)
  {
  }

  lemma SettlingMoves(g: Regs, m: Beam, e: Enable)
    requires Lined(g) && m.col <= g.horzTotal && SettlingAt(g, e, m.col)
    ensures var n := AcrossNow(g, m, e);
            if EndsLine(g, m) then AcrossAt(g, n, 0) else SettlingAt(g, n, m.col + 1)
  {
  }

  /** The vertical bits after a call, by the counters that it leaves. */
  lemma NextDown(g: Regs, k: Scan, e: Enable, due: bool)
    ensures var n, k', over := NextEnable(g, k, e, due), NextScan(g, k, due), Wraps(g, k, due);
            && n.scanline == (if EndsLine(g, k.beam) then k'.beam.raster / 8 % 2 == 0 else e.scanline)
            && n.vsync == ((e.vsync || over) && (k'.beam.row != g.vertDisp || k'.opening.firstLine))
  {
    hide NextBeam, NextEnding, NextFetch, EndsFrame;
  }

  lemma DownMoves(g: Regs, k: Scan, e: Enable, p: Place, due: bool, dummy: bool)
    requires Timed(g) && Within(g, p, dummy) && Decided(g, p, due, dummy) && Holds(g, k, p)
    requires DownAt(g, e, p) || NextPlace(g, p, dummy) == ORIGIN
    ensures DownAt(g, NextEnable(g, k, e, due), NextPlace(g, p, dummy))
  {
    hide NextEnable, NextScan, Wraps, EndingAt, FetchAt, Decided;
    NextDown(g, k, e, due);
    CountersMove(g, k, p, due, dummy);
    BeamMoves(g, k, p, due, dummy);
  }

  /** A place's next column. */
  lemma NextColumn(g: Regs, p: Place, dummy: bool)
    requires Within(g, p, dummy)
    ensures NextPlace(g, p, dummy).col == if p.col == g.horzTotal then 0 else p.col + 1
  {
  }

  lemma BeamColumn(g: Regs, p: Place)
    ensures BeamAt(g, p).col == p.col
  {
  }

  /** One call at a place where the display is as it should be, or in a frame that began with it anyhow. */
  lemma DisplayMoves(s: State, g: Regs, p: Place, count: nat, lit: bool)
    requires Timed(g) && At(s, g, p, count, lit)
    ensures var q := NextPlace(g, p, DummyDue(g, count, lit));
            && (DisplayAt(g, s.enable, p) ==> DisplayAt(g, Generate(s).enable, q))
            && (SettlingAt(g, s.enable, p.col) ==>
                  if q.col == 0 then AcrossAt(g, Generate(s).enable, 0)
                  else SettlingAt(g, Generate(s).enable, q.col))
            && (q == ORIGIN ==> DownAt(g, Generate(s).enable, q))
  {
    hide AcrossAt, SettlingAt, DownAt, AcrossNow, NextPlace, NextEnable, NextScan, NextV, NextH, FieldAfter, Output,
      InRange, EndingAt, FetchAt, FieldAt, DummyDue, Decided, BeamAt;
    assert Lined(g);
    hide Timed, Lined;
    var k, e, due, dummy := s.scan, s.enable, s.field.dummyDue, DummyDue(g, count, lit);
    EndIsDecided(g, e, s.field, p, count, lit);
    NextAcross(g, k, e, due);
    NextColumn(g, p, dummy);
    BeamColumn(g, p);
    AcrossOnly(g, NextEnable(g, k, e, due), AcrossNow(g, k.beam, e), NextPlace(g, p, dummy).col);
    if AcrossAt(g, e, p.col) {
      AcrossMoves(g, k.beam, e);
    }
    if SettlingAt(g, e, p.col) {
      SettlingMoves(g, k.beam, e);
    }
    if DownAt(g, e, p) || NextPlace(g, p, dummy) == ORIGIN {
      DownMoves(g, k, e, p, due, dummy);
    }
  }

  lemma AcrossOnly(g: Regs, a: Enable, b: Enable, c: nat)
    requires a.hsync == b.hsync && a.skew == b.skew
    ensures AcrossAt(g, a, c) == AcrossAt(g, b, c) && SettlingAt(g, a, c) == SettlingAt(g, b, c)
  {
  }

  // ---------------------------------------------------------------- display enable over whole frames

  lemma {:induction false} FrameShown(s: State, g: Regs, calls: nat, count: nat, lit: bool)
    requires Timed(g) && At(s, g, ORIGIN, count, lit) && calls < FrameCalls(g, DummyDue(g, count, lit))
    ensures InRange(s)
    ensures var p := PlaceAfter(g, calls, DummyDue(g, count, lit));
            && (DisplayAt(g, s.enable, ORIGIN) ==> DisplayAt(g, After(s, calls).enable, p))
            && SettlingAt(g, After(s, calls).enable, p.col)
  {
    hide NextPlace, Timed, FrameCalls, DummyDue, Generate, At, DisplayAt, AcrossAt, SettlingAt, InRange;
    AtWithin(s, g, ORIGIN, count, lit);
    if calls == 0 {
      NoneYet(s);
      Unsettled(g, s.enable);
    } else {
      FrameShown(s, g, calls - 1, count, lit);
      Reaches(s, g, calls - 1, count, lit);
      DisplayMoves(After(s, calls - 1), g, PlaceAfter(g, calls - 1, DummyDue(g, count, lit)), count, lit);
      Unsettled(g, After(s, calls).enable);
    }
  }

  lemma Unsettled(g: Regs, e: Enable)
    ensures SettlingAt(g, e, 0)
  {
  }

  /** Every frame leaves the next one's first character with the display bits of its place. */
  lemma NextFrameShown(s: State, g: Regs, count: nat, lit: bool)
    requires Timed(g) && At(s, g, ORIGIN, count, lit)
    ensures InRange(s) && DisplayAt(g, After(s, FrameCalls(g, DummyDue(g, count, lit))).enable, ORIGIN)
  {
    hide NextPlace, Timed, FrameCalls, DummyDue, Generate, CallsTo, AcrossAt, SettlingAt, DownAt, At, Within, InRange;
    var dummy := DummyDue(g, count, lit);
    AtWithin(s, g, ORIGIN, count, lit);
    OriginWithin(g);
    PlaceMoves(g, ORIGIN, dummy);
    OriginIsFirst(g);
    var n := FrameCalls(g, dummy) - 1;
    Reaches(s, g, n, count, lit);
    FrameShown(s, g, n, count, lit);
    var p := PlaceAfter(g, n, dummy);
    AtWithin(After(s, n), g, p, count, lit);
    PlaceMoves(g, p, dummy);
    DisplayMoves(After(s, n), g, p, count, lit);
  }

  lemma PlaceShown(s: State, g: Regs, p: Place, calls: nat, count: nat, lit: bool)
    requires Timed(g) && At(s, g, ORIGIN, count, lit) && Within(g, p, DummyDue(g, count, lit))
    requires calls == CallsTo(g, p) && DisplayAt(g, s.enable, ORIGIN)
    ensures InRange(s) && DisplayAt(g, After(s, calls).enable, p)
  {
    hide At, NextPlace, Timed, FrameCalls, Generate, CallsTo, CountAfter, DummyDue, After, DisplayAt;
    var dummy := DummyDue(g, count, lit);
    AtWithin(s, g, ORIGIN, count, lit);
    PlaceMoves(g, p, dummy);
    Reaches(s, g, calls, count, lit);
    FrameShown(s, g, calls, count, lit);
    AtWithin(After(s, calls), g, PlaceAfter(g, calls, dummy), count, lit);
    PlacesDiffer(g, p, PlaceAfter(g, calls, dummy), dummy);
  }

  lemma {:induction false} UserStays(s: State, calls: nat)
    requires InRange(s)
    ensures After(s, calls).enable.user == s.enable.user && After(s, calls).enable.frameSkip == s.enable.frameSkip
  {
    hide InRange;
    if calls > 0 {
      UserStays(s, calls - 1);
      UserKept(After(s, calls - 1));
    }
  }

  lemma UserKept(s: State)
    requires InRange(s)
    ensures Generate(s).enable.user == s.enable.user && Generate(s).enable.frameSkip == s.enable.frameSkip
  {
    hide NextScan, NextV, NextH, NextEnable, FieldAfter, Output, InRange;
    NextAcross(s.regs, s.scan, s.enable, s.field.dummyDue);
  }

  /**
   * In every frame of an unbounded run but the first: while the address of character c of raster k of row r is on the
   * bus, the display is enabled if and only if R8 does not blank it, the row is above R6 (or the line is the first,
   * or with R6 and R9 zero no later line is of row R6), the raster is one of 0 to 7 or 16 to 23, and c is past the
   * skew and not past R1 plus the skew. A line too short for R1 and the skew is never closed: all its characters are.
   */
  lemma DisplayEnabledAt(s: State, g: Regs, n: nat, r: nat, k: nat, c: nat, count: nat, lit: bool)
    requires Timed(g) && At(s, g, ORIGIN, count, lit) && 0 < n
    requires r <= g.vertTotal && k <= g.rasters && c <= g.horzTotal
    ensures InRange(s)
    ensures Displays(After(s, FrameStart(g, count, lit, n) + Rank(g, r, k, c)).enable) <==>
            && s.enable.user && s.enable.frameSkip
            && (r < g.vertDisp || (r == 0 && k == 0) || (g.vertDisp == 0 && g.rasters == 0))
            && k / 8 % 2 == 0
            && (g.skew < c <= g.horzDisp + g.skew || g.horzTotal < g.horzDisp + g.skew)
  {
    hide At, Timed, CallsTo, After, InRange, Generate, Rank, FrameCalls, DummyDue, CountAfter, Begun, DisplayAt,
      CountAt, Displays;
    var before, from := FrameStart(g, count, lit, n - 1), FrameStart(g, count, lit, n);
    EveryFrameBegins(s, g, count, lit, n - 1);
    NextFrameShown(After(s, before), g, CountAt(count, lit, n - 1), LitAt(lit, n - 1));
    AfterMore(s, before, FrameCalls(g, DummyDue(g, CountAt(count, lit, n - 1), LitAt(lit, n - 1))));
    EveryFrameBegins(s, g, count, lit, n);
    RankIs(g, r, k, c);
    PlaceShown(After(s, from), g, Main(r, k, c), Rank(g, r, k, c), CountAt(count, lit, n), LitAt(lit, n));
    AfterMore(s, from, Rank(g, r, k, c));
    UserStays(s, from + Rank(g, r, k, c));
    BitsAreLit(g, After(s, from + Rank(g, r, k, c)).enable, r, k, c);
  }

  lemma BitsAreLit(g: Regs, e: Enable, r: nat, k: nat, c: nat)
    requires Timed(g) && c <= g.horzTotal && DisplayAt(g, e, Main(r, k, c))
    ensures Displays(e) <==>
            && e.user && e.frameSkip
            && (r < g.vertDisp || (r == 0 && k == 0) || (g.vertDisp == 0 && g.rasters == 0))
            && k / 8 % 2 == 0
            && (g.skew < c <= g.horzDisp + g.skew || g.horzTotal < g.horzDisp + g.skew)
  {
  }

  /** One call, whatever the frame, at a line's column. */
  lemma CrossesOn(s: State)
    requires InRange(s) && Lined(s.regs) && s.scan.beam.col <= s.regs.horzTotal
    ensures var t, g, c := Generate(s), s.regs, s.scan.beam.col;
            && (AcrossAt(g, s.enable, c) ==> AcrossAt(g, t.enable, if c == g.horzTotal then 0 else c + 1))
            && (SettlingAt(g, s.enable, c) ==>
                  if c == g.horzTotal then AcrossAt(g, t.enable, 0) else SettlingAt(g, t.enable, c + 1))
  {
    hide AcrossAt, SettlingAt, AcrossNow, NextEnable, NextScan, NextV, NextH, FieldAfter, Output, InRange, Lined;
    var g, k := s.regs, s.scan;
    NextAcross(g, k, s.enable, s.field.dummyDue);
    AcrossOnly(g, Generate(s).enable, AcrossNow(g, k.beam, s.enable),
               if EndsLine(g, k.beam) then 0 else k.beam.col + 1);
    if AcrossAt(g, s.enable, k.beam.col) {
      AcrossMoves(g, k.beam, s.enable);
    }
    if SettlingAt(g, s.enable, k.beam.col) {
      SettlingMoves(g, k.beam, s.enable);
    }
  }

  /**
   * In any line but the first, whatever the frame and however wide R1: both bits that open the line are set exactly
   * past the skew and up to R1 plus the skew, where the line is closed at all; else throughout.
   */
  lemma {:induction false} LineIsOpen(s: State, calls: nat)
    requires InRange(s) && Lined(s.regs) && s.scan.beam.col == 0
    ensures var g, t := s.regs, After(s, calls);
            var c := t.scan.beam.col;
            && t.regs == g && c <= g.horzTotal
            && if calls <= g.horzTotal then c == calls && SettlingAt(g, t.enable, c) else AcrossAt(g, t.enable, c)
  {
    hide Generate, InRange, AcrossAt, SettlingAt, Lined;
    Unsettled(s.regs, s.enable);
    if calls > 0 {
      LineIsOpen(s, calls - 1);
      var t := After(s, calls - 1);
      CrossesOn(t);
      ColumnMoves(t);
    }
  }

  // ---------------------------------------------------------------- horizontal sync

  /** A width of zero counts right round. */
  function Width(g: Regs): nat {
    if g.hsyncWidth == 0 then 16 else g.hsyncWidth
  }

  /** How many characters a column is past the one that follows R2. */
  function PastSync(g: Regs, c: nat): int {
    if g.hsyncPos < c then c - g.hsyncPos - 1 else c + g.horzTotal - g.hsyncPos
  }

  /** The pulse at a column: on for the characters after R2 that its width says. */
  predicate SyncAt(g: Regs, h: HPulse, c: nat) {
    h.on == (PastSync(g, c) < Width(g)) && (h.on ==> h.count == PastSync(g, c))
  }

  /** Calls until a pulse that is on goes off. */
  function Left(g: Regs, h: HPulse): nat {
    (g.hsyncWidth - h.count - 1) % 16 + 1
  }

  /** Calls until the one that finds the beam at R2 has been made. */
  function ToGo(g: Regs, c: nat): int {
    if c <= g.hsyncPos then g.hsyncPos - c + 1 else g.hsyncPos - c + 1 + g.horzTotal + 1
  }

  /** The same from any state: a pulse left over goes off first, and then R2 is waited for. */
  predicate SyncSettling(g: Regs, h: HPulse, c: nat, calls: nat) {
    SyncAt(g, h, c) || (h.on && calls + Left(g, h) <= 16) || (!h.on && calls + ToGo(g, c) <= 16 + g.horzTotal + 1)
  }

  /** R2 is in the line, which is at least as long as the pulse. */
  predicate Synced(g: Regs) {
    g.horzTotal < 256 && g.hsyncPos <= g.horzTotal && g.hsyncWidth < 16 && Width(g) <= g.horzTotal + 1
  }

  lemma SyncMoves(g: Regs, m: Beam, h: HPulse, calls: nat)
    requires Synced(g) && m.col <= g.horzTotal && SyncSettling(g, h, m.col, calls)
    ensures SyncSettling(g, NextH(g, m, h), if m.col == g.horzTotal then 0 else m.col + 1, calls + 1)
  {
    hide ToGo, Left;
    if SyncAt(g, h, m.col) {
      SyncKeeps(g, m, h);
    } else if h.on {
      LeftFalls(g, h);
      ToGoBound(g, if m.col == g.horzTotal then 0 else m.col + 1);
    } else {
      ToGoFalls(g, m.col);
    }
  }

  lemma SyncKeeps(g: Regs, m: Beam, h: HPulse)
    requires Synced(g) && m.col <= g.horzTotal && SyncAt(g, h, m.col)
    ensures SyncAt(g, NextH(g, m, h), if m.col == g.horzTotal then 0 else m.col + 1)
  {
  }

  lemma LeftFalls(g: Regs, h: HPulse)
    requires g.hsyncWidth < 16
    ensures 1 <= Left(g, h) <= 16
    ensures var counted := (h.count + 1) % 16;
            if Left(g, h) == 1 then counted == g.hsyncWidth
            else counted != g.hsyncWidth && Left(g, HPulse(true, counted)) == Left(g, h) - 1
  {
  }

  lemma ToGoBound(g: Regs, c: nat)
    requires g.hsyncPos <= g.horzTotal && c <= g.horzTotal
    ensures 1 <= ToGo(g, c) <= g.horzTotal + 1
  {
  }

  lemma ToGoFalls(g: Regs, c: nat)
    requires g.hsyncPos <= g.horzTotal && c <= g.horzTotal
    ensures c == g.hsyncPos <==> ToGo(g, c) == 1
    ensures c != g.hsyncPos ==> ToGo(g, if c == g.horzTotal then 0 else c + 1) == ToGo(g, c) - 1
  {
  }

  /** What a call does to the column and the pulse, whatever the registers and the frame. */
  lemma ColumnMoves(s: State)
    requires InRange(s) && s.scan.beam.col <= s.regs.horzTotal
    ensures var t := Generate(s);
            && t.regs == s.regs && t.h == NextH(s.regs, s.scan.beam, s.h)
            && t.scan.beam.col == if s.scan.beam.col == s.regs.horzTotal then 0 else s.scan.beam.col + 1
  {
    hide NextV, NextEnable, FieldAfter, Output, NextEnding, NextFetch, NextOpening, Wraps, RasterUp, EndsRow, NextH;
  }

  lemma {:induction false} SyncSettles(s: State, calls: nat)
    requires InRange(s) && Synced(s.regs) && s.scan.beam.col <= s.regs.horzTotal
    ensures var t := After(s, calls);
            && t.regs == s.regs && t.scan.beam.col <= s.regs.horzTotal
            && SyncSettling(s.regs, t.h, t.scan.beam.col, calls)
  {
    hide Generate, InRange, SyncSettling, Synced, NextH;
    if calls == 0 {
      SyncStarts(s.regs, s.h, s.scan.beam.col);
    } else {
      SyncSettles(s, calls - 1);
      var t := After(s, calls - 1);
      ColumnMoves(t);
      SyncMoves(s.regs, t.scan.beam, t.h, calls - 1);
    }
  }

  lemma SyncStarts(g: Regs, h: HPulse, c: nat)
    requires Synced(g) && c <= g.horzTotal
    ensures SyncSettling(g, h, c, 0)
  {
    hide SyncAt, Left, ToGo;
    LeftFalls(g, h);
    ToGoBound(g, c);
  }

  /**
   * From any state, after the sixteen calls and the line that a pulse left over may take: with R2 in the line and the
   * line as long as the pulse, HSYNC is on exactly at the characters after R2 that R3 says.
   */
  lemma SyncFollowsR2(s: State, calls: nat)
    requires InRange(s) && Synced(s.regs) && s.scan.beam.col <= s.regs.horzTotal
    requires 16 + s.regs.horzTotal + 1 <= calls
    ensures var t := After(s, calls); t.h.on <==> PastSync(s.regs, t.scan.beam.col) < Width(s.regs)
  {
    hide After, InRange, Synced, Left, ToGo;
    SyncSettles(s, calls);
    var t := After(s, calls);
    SyncSettled(s.regs, t.h, t.scan.beam.col, calls);
  }

  lemma SyncSettled(g: Regs, h: HPulse, c: nat, calls: nat)
    requires Synced(g) && c <= g.horzTotal && SyncSettling(g, h, c, calls) && 16 + g.horzTotal + 1 <= calls
    ensures SyncAt(g, h, c)
  {
    hide Left, ToGo;
    LeftFalls(g, h);
    ToGoBound(g, c);
  }

  /** With R2 past the line's end, HSYNC goes off within sixteen calls and never comes on again. */
  lemma {:induction false} NoSync(s: State, calls: nat)
    requires InRange(s) && s.scan.beam.col <= s.regs.horzTotal < s.regs.hsyncPos
    ensures var t := After(s, calls);
            && t.regs == s.regs && t.scan.beam.col <= s.regs.horzTotal
            && (t.h.on ==> calls + Left(s.regs, t.h) <= 16) && (16 <= calls ==> !t.h.on)
  {
    hide Generate, Left;
    LeftFalls(s.regs, s.h);
    if calls > 0 {
      NoSync(s, calls - 1);
      var t := After(s, calls - 1);
      ColumnMoves(t);
      LeftFalls(s.regs, t.h);
      LeftFalls(s.regs, NextH(s.regs, t.scan.beam, t.h));
      hide InRange;
    }
  }

  /** A pulse that a call raises is on for as many calls as its width, wherever in the line and however short it is. */
  lemma {:induction false} SyncLasts(s: State, calls: nat)
    requires InRange(s) && s.scan.beam.col == s.regs.hsyncPos <= s.regs.horzTotal
    requires !s.h.on || (s.h.count + 1) % 16 == s.regs.hsyncWidth
    requires 0 < calls <= Width(s.regs)
    ensures var t := After(s, calls);
            && t.regs == s.regs && t.scan.beam.col <= s.regs.horzTotal && t.h == HPulse(true, calls - 1)
    ensures calls == Width(s.regs) ==>
              (Generate(After(s, calls)).h.on <==> After(s, calls).scan.beam.col == s.regs.hsyncPos)
  {
    hide Generate, NextH, Width;
    PulseStarts(s.regs, s.scan.beam, s.h);
    if calls == 1 {
      NoneYet(s);
      ColumnMoves(s);
    } else {
      SyncLasts(s, calls - 1);
      var t := After(s, calls - 1);
      ColumnMoves(t);
      PulseGoesOn(s.regs, t.scan.beam, calls - 2);
    }
    PulseGoesOn(s.regs, After(s, calls).scan.beam, calls - 1);
    ColumnMoves(After(s, calls));
  }

  lemma PulseStarts(g: Regs, m: Beam, h: HPulse)
    requires g.hsyncWidth < 16 && m.col == g.hsyncPos && (!h.on || (h.count + 1) % 16 == g.hsyncWidth)
    ensures NextH(g, m, h) == HPulse(true, 0) && 1 <= Width(g) <= 16
  {
  }

  lemma PulseGoesOn(g: Regs, m: Beam, count: nat)
    requires g.hsyncWidth < 16 && count < Width(g)
    ensures var h := NextH(g, m, HPulse(true, count));
            if count + 1 < Width(g) then h == HPulse(true, count + 1) else h.on == (m.col == g.hsyncPos)
  {
  }
}
