/** The integer progress functions of ClutterAlpha: each maps the current
    frame of the bound timeline and the timeline's frame count to an alpha
    value between 0 and CLUTTER_ALPHA_MAX_ALPHA.

    The timeline is reduced to the two numbers the functions read from it,
    `frame` (clutter_timeline_get_current_frame) and `nFrames`
    (clutter_timeline_get_n_frames), both stored in a `gint`; a timeline
    only reports `0 <= frame <= nFrames`. The C expressions multiply in
    `gint`; the functions used by the rest of the model compute the exact
    product, and the `...AsWritten` functions model the 32-bit product of
    the source (see the Findings of the README). */
module AlphaProgress {
  import opened Base

  /** CLUTTER_ALPHA_MAX_ALPHA; clutter-alpha.c refuses to build otherwise. */
  const MAX_ALPHA: nat := 0xffff

  /** Largest operand whose product with MAX_ALPHA still fits in a gint. */
  const LARGEST_SAFE_FACTOR: nat := 32768

  /** What a timeline can report: a current frame within its frame count. */
  predicate TimelinePosition(frame: int, nFrames: int) {
    0 < nFrames <= INT32_MAX && 0 <= frame <= nFrames
  }

  // ---------------------------------------------------------------------
  // Arithmetic helpers about the non-negative division the source uses.
  // ---------------------------------------------------------------------

  lemma DivMonotone(a: int, b: int, d: int)
    requires 0 <= a <= b && 0 < d
    ensures a / d <= b / d
  {
    if a / d > b / d {
      var qa, qb := a / d, b / d;
      assert qa >= qb + 1;
      MulMonotone(d, qb + 1, qa);
      assert false;
    }
  }

  /** A product bounded by the divisor times the factor stays below the factor. */
  lemma ScaledDivBounded(f: int, m: int, n: int)
    requires 0 <= f <= n && 0 < n && 0 <= m
    ensures 0 <= f * m / n <= m
  {
    MulMonotone(m + 1, f, n);
    assert f * m <= n * m;
    DivMonotone(f * m, n * m, n);
    DivUnique(n * m, n, m, 0);
  }

  // ---------------------------------------------------------------------
  // clutter_ramp_inc_func
  // ---------------------------------------------------------------------

  /** The linear ramp: frame 0 gives 0, the last frame gives MAX_ALPHA, and
      the value is the frame's share of MAX_ALPHA rounded down. */
  function RampInc(frame: int, nFrames: int): (r: nat)
    requires TimelinePosition(frame, nFrames)
    ensures r <= MAX_ALPHA
    ensures frame == 0 ==> r == 0
    ensures frame == nFrames ==> r == MAX_ALPHA
    ensures r * nFrames <= frame * MAX_ALPHA < (r + 1) * nFrames
  {
    ScaledDivBounded(frame, MAX_ALPHA, nFrames);
    DivUnique(nFrames * MAX_ALPHA, nFrames, MAX_ALPHA, 0);
    frame * MAX_ALPHA / nFrames
  }

  lemma {:induction false} RampIncMonotonic(f1: int, f2: int, nFrames: int)
    requires TimelinePosition(f1, nFrames) && TimelinePosition(f2, nFrames)
    requires f1 <= f2
    ensures RampInc(f1, nFrames) <= RampInc(f2, nFrames)
  {
    MulMonotone(MAX_ALPHA, f1, f2);
    DivMonotone(f1 * MAX_ALPHA, f2 * MAX_ALPHA, nFrames);
  }

  /** The gint product `frame * CLUTTER_ALPHA_MAX_ALPHA`, or None when the
      product overflows (undefined behaviour for a signed int in C). */
  function GintScaled(x: int): (r: Option<int>)
    ensures r.Some? <==> IsInt32(x * MAX_ALPHA)
    ensures r.Some? ==> r.value == x * MAX_ALPHA
  {
    if IsInt32(x * MAX_ALPHA) then Some(x * MAX_ALPHA) else None
  }

  lemma GintScaledDefined(x: int)
    requires 0 <= x
    ensures GintScaled(x).Some? <==> x <= LARGEST_SAFE_FACTOR
  {
    if x > LARGEST_SAFE_FACTOR {
      MulMonotone(MAX_ALPHA, LARGEST_SAFE_FACTOR + 1, x);
    } else {
      MulMonotone(MAX_ALPHA, x, LARGEST_SAFE_FACTOR);
    }
  }

  /** clutter_ramp_inc_func with its gint product: None where it overflows. */
  function RampIncAsWritten(frame: int, nFrames: int): (r: Option<nat>)
    requires TimelinePosition(frame, nFrames)
    ensures r.Some? <==> frame <= LARGEST_SAFE_FACTOR
    ensures r.Some? ==> r.value == RampInc(frame, nFrames)
  {
    GintScaledDefined(frame);
    match GintScaled(frame)
    case None => None
    case Some(p) => Some(p / nFrames)
  }

  /** A timeline of 40000 frames (about eleven minutes at 60 frames per
      second) takes the ramp outside gint at its last frame, where the
      intended value is MAX_ALPHA. */
  lemma RampIncOverflowAtLongTimeline()
    ensures RampIncAsWritten(40000, 40000) == None
    ensures RampInc(40000, 40000) == MAX_ALPHA
  {
  }

  // ---------------------------------------------------------------------
  // clutter_ramp_dec_func
  // ---------------------------------------------------------------------

  /** The falling ramp: MAX_ALPHA at frame 0, 0 at the last frame. */
  function RampDec(frame: int, nFrames: int): (r: nat)
    requires TimelinePosition(frame, nFrames)
    ensures r <= MAX_ALPHA
    ensures frame == 0 ==> r == MAX_ALPHA
    ensures frame == nFrames ==> r == 0
    ensures r * nFrames <= (nFrames - frame) * MAX_ALPHA < (r + 1) * nFrames
  {
    ScaledDivBounded(nFrames - frame, MAX_ALPHA, nFrames);
    DivUnique(nFrames * MAX_ALPHA, nFrames, MAX_ALPHA, 0);
    (nFrames - frame) * MAX_ALPHA / nFrames
  }

  lemma {:induction false} RampDecMonotonic(f1: int, f2: int, nFrames: int)
    requires TimelinePosition(f1, nFrames) && TimelinePosition(f2, nFrames)
    requires f1 <= f2
    ensures RampDec(f1, nFrames) >= RampDec(f2, nFrames)
  {
    MulMonotone(MAX_ALPHA, nFrames - f2, nFrames - f1);
    DivMonotone((nFrames - f2) * MAX_ALPHA, (nFrames - f1) * MAX_ALPHA, nFrames);
  }

  /** The two ramps are complementary up to rounding: their sum is
      MAX_ALPHA exactly when the frame's share divides evenly, and one less
      otherwise. */
  lemma {:induction false} RampIncPlusDec(frame: int, nFrames: int)
    requires TimelinePosition(frame, nFrames)
    ensures (frame * MAX_ALPHA) % nFrames == 0 ==>
              RampInc(frame, nFrames) + RampDec(frame, nFrames) == MAX_ALPHA
    ensures (frame * MAX_ALPHA) % nFrames != 0 ==>
              RampInc(frame, nFrames) + RampDec(frame, nFrames) == MAX_ALPHA - 1
  {
    var a := frame * MAX_ALPHA;
    var q, s := a / nFrames, a % nFrames;
    assert (nFrames - frame) * MAX_ALPHA == nFrames * MAX_ALPHA - a;
    if s == 0 {
      assert nFrames * MAX_ALPHA - a == nFrames * (MAX_ALPHA - q) + 0;
      DivUnique(nFrames * MAX_ALPHA - a, nFrames, MAX_ALPHA - q, 0);
    } else {
      assert nFrames * MAX_ALPHA - a == nFrames * (MAX_ALPHA - q - 1) + (nFrames - s);
      DivUnique(nFrames * MAX_ALPHA - a, nFrames, MAX_ALPHA - q - 1, nFrames - s);
    }
  }

  /** clutter_ramp_dec_func with its gint product: None where it overflows. */
  function RampDecAsWritten(frame: int, nFrames: int): (r: Option<nat>)
    requires TimelinePosition(frame, nFrames)
    ensures r.Some? <==> nFrames - frame <= LARGEST_SAFE_FACTOR
    ensures r.Some? ==> r.value == RampDec(frame, nFrames)
  {
    GintScaledDefined(nFrames - frame);
    match GintScaled(nFrames - frame)
    case None => None
    case Some(p) => Some(p / nFrames)
  }

  /** The falling ramp of a 40000-frame timeline overflows at its first
      frame, where the intended value is MAX_ALPHA. */
  lemma RampDecOverflowAtLongTimeline()
    ensures RampDecAsWritten(0, 40000) == None
    ensures RampDec(0, 40000) == MAX_ALPHA
  {
  }

  // ---------------------------------------------------------------------
  // clutter_ramp_func
  // ---------------------------------------------------------------------

  /** The full ramp: rises over the first half of the timeline and falls
      over the rest. It divides by `nFrames / 2`, so it needs two frames. */
  function Ramp(frame: int, nFrames: int): (r: nat)
    requires TimelinePosition(frame, nFrames) && 2 <= nFrames
    ensures r <= MAX_ALPHA
    ensures frame == 0 ==> r == 0
    ensures frame == nFrames ==> r == 0
    ensures frame == nFrames / 2 ==> r == MAX_ALPHA
  {
    var half := nFrames / 2;
    DivUnique(half * MAX_ALPHA, half, MAX_ALPHA, 0);
    // the frames from the nearer end of the timeline
    var fromEnd := if frame > half then nFrames - frame else frame;
    ScaledDivBounded(fromEnd, MAX_ALPHA, half);
    fromEnd * MAX_ALPHA / half
  }

  /** The full ramp is symmetric about the middle of the timeline, for odd
      frame counts too. */
  lemma {:induction false} RampSymmetric(frame: int, nFrames: int)
    requires TimelinePosition(frame, nFrames) && 2 <= nFrames
    ensures Ramp(frame, nFrames) == Ramp(nFrames - frame, nFrames)
  {
    var half := nFrames / 2;
    if frame > half {
      assert nFrames - frame <= half;
      assert nFrames - (nFrames - frame) == frame;
    } else if nFrames - frame <= half {
      assert nFrames - frame == frame;
    }
  }

  /** The rising half of the full ramp is the linear ramp over half the
      frames, and the falling half is the falling ramp over half the frames. */
  lemma {:induction false} RampHalves(frame: int, nFrames: int)
    requires TimelinePosition(frame, nFrames) && 2 <= nFrames
    ensures frame <= nFrames / 2 ==> Ramp(frame, nFrames) == RampInc(frame, nFrames / 2)
    ensures frame > nFrames / 2 ==>
              Ramp(frame, nFrames) == RampDec(frame - (nFrames - nFrames / 2), nFrames / 2)
  {
    var half := nFrames / 2;
    if frame > half {
      assert nFrames - frame == half - (frame - (nFrames - half));
    }
  }

  lemma {:induction false} RampRisesThenFalls(f1: int, f2: int, nFrames: int)
    requires TimelinePosition(f1, nFrames) && TimelinePosition(f2, nFrames) && 2 <= nFrames
    requires f1 <= f2
    ensures f2 <= nFrames / 2 ==> Ramp(f1, nFrames) <= Ramp(f2, nFrames)
    ensures nFrames / 2 <= f1 ==> Ramp(f1, nFrames) >= Ramp(f2, nFrames)
  {
    var half := nFrames / 2;
    RampHalves(f1, nFrames);
    RampHalves(f2, nFrames);
    if f2 <= half {
      RampIncMonotonic(f1, f2, half);
    } else if half < f1 {
      RampDecMonotonic(f1 - (nFrames - half), f2 - (nFrames - half), half);
    }
  }

  /** clutter_ramp_func with its gint products: None where the branch taken overflows. */
  function RampAsWritten(frame: int, nFrames: int): (r: Option<nat>)
    requires TimelinePosition(frame, nFrames) && 2 <= nFrames
    ensures r.Some? <==> (if frame > nFrames / 2 then nFrames - frame else frame) <= LARGEST_SAFE_FACTOR
    ensures r.Some? ==> r.value == Ramp(frame, nFrames)
  {
    var half := nFrames / 2;
    var fromEnd := if frame > half then nFrames - frame else frame;
    GintScaledDefined(fromEnd);
    match GintScaled(fromEnd)
    case None => None
    case Some(p) =>
      assert p / half == Ramp(frame, nFrames);
      Some(p / half)
  }

  /** An 80000-frame full ramp overflows at its peak, where the intended
      value is MAX_ALPHA. */
  lemma RampOverflowAtLongTimeline()
    ensures RampAsWritten(40000, 80000) == None
    ensures Ramp(40000, 80000) == MAX_ALPHA
  {
  }

  // ---------------------------------------------------------------------
  // clutter_square_func
  // ---------------------------------------------------------------------

  /** The square wave: 0 for the first half of the timeline, MAX_ALPHA after. */
  function Square(frame: int, nFrames: int): (r: nat)
    requires TimelinePosition(frame, nFrames)
    ensures r == 0 || r == MAX_ALPHA
    ensures r == MAX_ALPHA <==> frame > nFrames / 2
  {
    if frame > nFrames / 2 then MAX_ALPHA else 0
  }

  /** The square wave switches once, from 0 at the start of the timeline to
      MAX_ALPHA at its end. */
  lemma {:induction false} SquareSwitchesOnce(f1: int, f2: int, nFrames: int)
    requires TimelinePosition(f1, nFrames) && TimelinePosition(f2, nFrames)
    requires f1 <= f2
    ensures Square(f1, nFrames) <= Square(f2, nFrames)
    ensures Square(0, nFrames) == 0 && Square(nFrames, nFrames) == MAX_ALPHA
  {
  }

  // ---------------------------------------------------------------------
  // clutter_smoothstep_dec_func
  // ---------------------------------------------------------------------

  /** The falling smoothstep, given the value `inc` that
      clutter_smoothstep_inc_func returns for the same timeline position:
      `CLUTTER_ALPHA_MAX_ALPHA - inc` computed in guint32. */
  function SmoothstepDec(inc: nat): (r: nat)
    requires IsUint32(inc)
    ensures IsUint32(r)
    ensures inc <= MAX_ALPHA ==> r <= MAX_ALPHA && r + inc == MAX_ALPHA
    ensures inc > MAX_ALPHA ==> r == UINT32_MODULUS + MAX_ALPHA - inc
  {
    (MAX_ALPHA - inc) % UINT32_MODULUS
  }

  /** Mirroring twice gives the rising curve back, on every guint32 value. */
  lemma {:induction false} SmoothstepDecInvolutive(inc: nat)
    requires IsUint32(inc)
    ensures SmoothstepDec(SmoothstepDec(inc)) == inc
  {
    var d := SmoothstepDec(inc);
    if inc <= MAX_ALPHA {
      assert MAX_ALPHA - d == inc;
    } else {
      assert MAX_ALPHA - d == inc - UINT32_MODULUS;
    }
  }
}
