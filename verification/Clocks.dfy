// The board's clock: six lines divided from one, of which the processor's can be held back for an access to a
// 1MHz device, and the phases that the two stretch sequences leave behind.

module Clocks {

  /** The 1MHz line, the processor's, and the 2, 4, 8 and 16MHz lines. */
  datatype Lines = Lines(c1: bool, e2: bool, c2: bool, c4: bool, c8: bool, c16: bool)

  /** The lines now and a tick ago, with the rest of a stretch sequence, which is read from its end. */
  datatype State = State(ticks: nat, now: Lines, prev: Lines, left: nat, sequence: seq<bool>)

  const IN_PHASE: seq<bool> := [false, false, true]
  const OUT_OF_PHASE: seq<bool> := [false, false, true, false, false]

  const POWER_ON := State(0, Lines(false, false, false, false, false, false),
                          Lines(true, true, true, true, true, true), 0, [])

  predicate WellFormed(c: State) {
    c.left <= |c.sequence| && c.ticks < 16
  }

  function BeginStretch(c: State): State {
    if c.now.e2 == c.now.c1 then c.(sequence := IN_PHASE, left := 3) else c.(sequence := OUT_OF_PHASE, left := 5)
  }

  /** The processor's line flips every eighth tick unless the stretch sequence says not. */
  predicate FlipsE2(c: State)
    requires WellFormed(c)
  {
    (c.ticks + 1) % 8 == 0 && (c.left > 0 ==> c.sequence[c.left - 1])
  }

  function Tick(c: State): State
    requires WellFormed(c)
  {
    var t := (c.ticks + 1) % 16;
    State(t,
          Lines(c.now.c1 != (t == 0), c.now.e2 != FlipsE2(c), c.now.c2 != (t % 8 == 0), c.now.c4 != (t % 4 == 0),
                c.now.c8 != (t % 2 == 0), !c.now.c16),
          c.now,
          if t % 8 == 0 && c.left > 0 then c.left - 1 else c.left,
          c.sequence)
  }

  predicate CpuEdge(c: State) {
    c.now.e2 && !c.prev.e2
  }

  predicate Falls1MHz(c: State) {
    !c.now.c1 && c.prev.c1
  }

  predicate MemoryEdge(c: State) {
    c.now.c4 && !c.prev.c4
  }

  // ---------------------------------------------------------------- what every run keeps

  /** The dividers that nothing holds back. */
  predicate Divided(ticks: nat, now: Lines) {
    now.c16 == (ticks % 2 == 1) && now.c8 == (ticks / 2 % 2 == 1) && now.c4 == (ticks / 4 % 2 == 1) &&
    now.c2 == (8 <= ticks)
  }

  /** While a stretch lasts, what is left of it tells which half of the 2MHz cycle it is and the processor's line. */
  predicate Held(ticks: nat, left: nat, sequence: seq<bool>, e2: bool) {
    (sequence == IN_PHASE || sequence == OUT_OF_PHASE || left == 0) &&
    (left > 0 ==> (left % 2 == 1) == (8 <= ticks)) && e2 == if left > 0 then 3 <= left else 8 <= ticks
  }

  predicate Sound(c: State) {
    WellFormed(c) && Divided(c.ticks, c.now) && Held(c.ticks, c.left, c.sequence, c.now.e2)
  }

  /** The processor's line has just gone up: it always does so half way through the sixteen ticks. */
  predicate AtEdge(c: State) {
    Sound(c) && c.ticks == 8 && c.left == 0
  }

  lemma PowerOnIsSound()
    ensures Sound(POWER_ON)
  {
  }

  lemma TickDivides(c: State)
    requires WellFormed(c) && Divided(c.ticks, c.now)
    ensures Divided(Tick(c).ticks, Tick(c).now)
  {
    NextBits(c.ticks);
  }

  /** Counting up flips a bit where all those below it wrap round. */
  lemma NextBits(t: nat)
    requires t < 16
    ensures var u := (t + 1) % 16;
            && (u % 2 == 1) == !(t % 2 == 1)
            && (u / 2 % 2 == 1) == ((t / 2 % 2 == 1) != (u % 2 == 0))
            && (u / 4 % 2 == 1) == ((t / 4 % 2 == 1) != (u % 4 == 0))
            && (8 <= u) == ((8 <= t) != (u % 8 == 0))
  {
  }

  lemma TickHolds(c: State)
    requires WellFormed(c) && Held(c.ticks, c.left, c.sequence, c.now.e2)
    ensures var d := Tick(c);
            WellFormed(d) && Held(d.ticks, d.left, d.sequence, d.now.e2) &&
            (d.now.e2 && !c.now.e2 <==> d.ticks == 8 && d.left == 0)
  {
    SequencesFlip();
    hide IN_PHASE, OUT_OF_PHASE;
  }

  lemma TickIsSound(c: State)
    requires Sound(c)
    ensures Sound(Tick(c))
    ensures CpuEdge(Tick(c)) <==> AtEdge(Tick(c))
  {
    hide Divided, Held, FlipsE2, WellFormed;
    TickDivides(c);
    TickHolds(c);
  }

  lemma SequencesFlip()
    ensures |IN_PHASE| == 3 && |OUT_OF_PHASE| == 5
    ensures forall i | 0 <= i < 3 :: IN_PHASE[i] == (i == 2)
    ensures forall i | 0 <= i < 5 :: OUT_OF_PHASE[i] == (i == 2)
  {
  }

  lemma StretchIsSound(c: State)
    requires AtEdge(c)
    ensures Sound(BeginStretch(c))
    ensures BeginStretch(c).left == if c.now.c1 then 3 else 5
  {
  }

  /** Ticks from power-on, with a stretch begun after each of those that say so. */
  function Run(stretches: seq<bool>): (c: State)
    ensures WellFormed(c)
  {
    if stretches == [] then POWER_ON
    else
      var c := Tick(Run(stretches[..|stretches| - 1]));
      if stretches[|stretches| - 1] then BeginStretch(c) else c
  }

  /** Whatever is stretched, the other lines are the bits of the number of ticks. */
  lemma {:induction false} OtherLinesRunFree(stretches: seq<bool>)
    ensures var n, c := |stretches|, Run(stretches);
            && c.ticks == n % 16 && Divided(c.ticks, c.now) && c.now.c1 == (n / 16 % 2 == 1)
  {
    if stretches != [] {
      OtherLinesRunFree(stretches[..|stretches| - 1]);
      TickDivides(Run(stretches[..|stretches| - 1]));
      hide Divided, FlipsE2;
      OneTickMore(|stretches|);
    }
  }

  lemma OneTickMore(n: nat)
    requires 0 < n
    ensures n % 16 == ((n - 1) % 16 + 1) % 16
    ensures (n / 16 % 2 == 1) == (((n - 1) / 16 % 2 == 1) != (n % 16 == 0))
  {
  }

  /** Whenever no stretch is under way the processor's line is the 2MHz line. */
  lemma LinesAgree(c: State)
    requires Sound(c) && c.left == 0
    ensures c.now.e2 == c.now.c2
  {
  }

  // ---------------------------------------------------------------- one cycle of the processor

  function After(c: State, n: nat): (r: State)
    requires WellFormed(c)
    ensures WellFormed(r)
  {
    if n == 0 then c else Tick(After(c, n - 1))
  }

  /** How many falling edges of the 1MHz line the next n ticks bring. */
  function Falling(c: State, n: nat): nat
    requires WellFormed(c)
  {
    if n == 0 then 0 else Falling(c, n - 1) + if Falls1MHz(After(c, n)) then 1 else 0
  }

  /** The processor's cycle begins at its edge, with or without a stretch. */
  predicate CycleStarts(c: State) {
    Sound(c) && c.ticks == 8 && c.left == if c.left == 0 then 0 else if c.now.c1 then 3 else 5
  }

  function CycleTicks(c: State): nat {
    if c.left == 0 then 16 else if c.left == 3 then 32 else 48
  }

  /** How often the 1MHz line has turned after n ticks of a cycle that begins half way between two turns. */
  function Turns(n: nat): nat {
    (n + 8) / 16
  }

  /** The lines that matter after n ticks of the processor's cycle, in closed form. */
  lemma {:induction false} CycleGoes(c: State, n: nat)
    requires CycleStarts(c)
    ensures var s := After(c, n);
            Sound(s) && s.ticks == (8 + n) % 16 && s.left == (if n / 8 < c.left then c.left - n / 8 else 0)
    ensures After(c, n).now.c1 == (c.now.c1 != (Turns(n) % 2 == 1))
  {
    hide Sound, CycleStarts, Turns, FlipsE2, Tick, WellFormed;
    StartsWell(c);
    if n == 0 {
      CycleBegins(c);
    } else {
      CycleGoes(c, n - 1);
      TickIsSound(After(c, n - 1));
      TickMoves(After(c, n - 1));
      TurnOn(n);
    }
  }

  lemma StartsWell(c: State)
    requires CycleStarts(c)
    ensures WellFormed(c)
  {
  }

  lemma CycleBegins(c: State)
    requires CycleStarts(c)
    ensures WellFormed(c) && Sound(After(c, 0)) && After(c, 0) == c && c.ticks == 8 && Turns(0) == 0
  {
  }

  lemma TickMoves(c: State)
    requires WellFormed(c)
    ensures var d := Tick(c);
            d.ticks == (c.ticks + 1) % 16 && d.now.c1 == (c.now.c1 != (d.ticks == 0)) &&
            d.left == if d.ticks % 8 == 0 && c.left > 0 then c.left - 1 else c.left
  {
  }

  lemma TurnOn(n: nat)
    requires 0 < n
    ensures Turns(n) == Turns(n - 1) + if (8 + n) % 16 == 0 then 1 else 0
    ensures n / 8 == (n - 1) / 8 + if (8 + n) % 16 % 8 == 0 then 1 else 0
    ensures (8 + n) % 16 == ((8 + (n - 1)) % 16 + 1) % 16
  {
    var q, r := (n + 8) / 16, (n + 8) % 16;
    assert n + 8 == 16 * q + r;
    if r == 0 {
      assert (n + 7) / 16 == q - 1;
      assert n / 8 == 2 * q - 1 && (n - 1) / 8 == 2 * q - 2;
    } else {
      assert (n + 7) / 16 == q;
      assert n / 8 == 2 * q - 1 + r / 8;
      assert (n - 1) / 8 == 2 * q - 1 + (r - 1) / 8;
    }
  }

  /** The falling edges are every other turn, the first of them if the line begins high. */
  lemma {:induction false} FallingGoes(c: State, n: nat)
    requires CycleStarts(c)
    ensures Falling(c, n) == if c.now.c1 then (Turns(n) + 1) / 2 else Turns(n) / 2
  {
    hide Sound, CycleStarts, Turns, After, WellFormed;
    StartsWell(c);
    if n == 0 {
      CycleBegins(c);
    } else {
      FallingGoes(c, n - 1);
      CycleGoes(c, n - 1);
      CycleGoes(c, n);
      TurnOn(n);
      AfterPrev(c, n);
    }
  }

  lemma AfterPrev(c: State, n: nat)
    requires WellFormed(c) && 0 < n
    ensures After(c, n).prev == After(c, n - 1).now
  {
  }

  /**
   * A cycle of the processor lasts 16 ticks, or when it is stretched 32 if it began with the 1MHz line high and 48
   * if not; its edge comes no sooner, and after a stretch the next cycle begins with the 1MHz line high.
   */
  lemma CycleLasts(c: State)
    requires CycleStarts(c)
    ensures AtEdge(After(c, CycleTicks(c))) && CpuEdge(After(c, CycleTicks(c)))
    ensures forall n | 0 < n < CycleTicks(c) :: !CpuEdge(After(c, n))
    ensures After(c, CycleTicks(c)).now.c1 == (c.left > 0 || !c.now.c1)
  {
    hide Sound, After, CycleStarts, Turns;
    CycleBegins(c);
    forall n | 0 < n <= CycleTicks(c) ensures CpuEdge(After(c, n)) <==> n == CycleTicks(c) {
      CycleGoes(c, n);
      CycleGoes(c, n - 1);
      AfterTick(c, n);
      TickIsSound(After(c, n - 1));
      EdgeIsLast(c, n);
    }
    CycleGoes(c, CycleTicks(c));
    CycleTurns(c);
  }

  lemma CycleTurns(c: State)
    requires CycleStarts(c)
    ensures Turns(CycleTicks(c)) == if c.left == 5 then 3 else if c.left == 3 then 2 else 1
    ensures c.left == 0 || c.left == if c.now.c1 then 3 else 5
  {
  }

  lemma AfterTick(c: State, n: nat)
    requires WellFormed(c) && 0 < n
    ensures After(c, n) == Tick(After(c, n - 1))
  {
  }

  lemma EdgeIsLast(c: State, n: nat)
    requires CycleStarts(c) && 0 < n <= CycleTicks(c)
    ensures (8 + n) % 16 == 8 && c.left <= n / 8 <==> n == CycleTicks(c)
  {
  }

  /** The guarantee of a stretch: the 1MHz line falls exactly once before the processor's next cycle. */
  lemma OneFallAStretch(c: State)
    requires CycleStarts(c) && c.left > 0
    ensures Falling(c, CycleTicks(c)) == 1
    ensures forall n | 0 < n <= CycleTicks(c) :: Falls1MHz(After(c, n)) <==> n == if c.now.c1 then 8 else 24
  {
    FallingGoes(c, CycleTicks(c));
    forall n | 0 < n <= CycleTicks(c) ensures Falls1MHz(After(c, n)) <==> n == if c.now.c1 then 8 else 24 {
      CycleGoes(c, n - 1);
      CycleGoes(c, n);
      AfterPrev(c, n);
      hide Sound, After, CycleStarts;
      FallsAt(n, c.now.c1);
    }
  }

  lemma FallsAt(n: nat, high: bool)
    requires 0 < n <= if high then 32 else 48
    ensures (high == (Turns(n) % 2 == 1)) && high != (Turns(n - 1) % 2 == 1) <==> n == if high then 8 else 24
  {
  }

  /** When the clock lets memory answer the processor, in the ticks of one of its cycles. */
  lemma MemoryEdges(c: State, n: nat)
    requires CycleStarts(c) && 0 < n
    ensures MemoryEdge(After(c, n)) && After(c, n).now.c2 <==> n % 16 == 4
  {
    hide Sound, After, Divided;
    StartsWell(c);
    CycleGoes(c, n);
    CycleGoes(c, n - 1);
    AfterPrev(c, n);
    DividedAfter(c, n);
    DividedAfter(c, n - 1);
    EdgeOf(After(c, n), After(c, n).ticks, After(c, n - 1).ticks);
    FourthTick(n);
  }

  lemma EdgeOf(d: State, ticks: nat, before: nat)
    requires Divided(ticks, d.now) && Divided(before, d.prev)
    ensures MemoryEdge(d) && d.now.c2 <==> ticks / 4 % 2 == 1 && before / 4 % 2 == 0 && 8 <= ticks
  {
  }

  lemma DividedAfter(c: State, n: nat)
    requires WellFormed(c) && Sound(After(c, n))
    ensures Divided(After(c, n).ticks, After(c, n).now)
  {
  }

  lemma FourthTick(n: nat)
    requires 0 < n
    ensures var t, u := (8 + n) % 16, (8 + (n - 1)) % 16;
            t / 4 % 2 == 1 && u / 4 % 2 == 0 && 8 <= t <==> n % 16 == 4
  {
    var q, r := (n + 8) / 16, (n + 8) % 16;
    assert n + 8 == 16 * q + r;
    if r > 0 {
      assert (n + 7) % 16 == r - 1;
    }
    assert n % 16 == (r + 8) % 16;
  }
}
