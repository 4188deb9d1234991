/**
 * The per-frame controller of the scene: the morph value every layer reads,
 * the inertial spin driven by lateral hand motion (impulse, damping, cap and
 * stop), and the tilt and scale of the tree group.  It also owns the index
 * of the focused photo.
 */
module Scene {
  import opened Numerics
  import opened Types
  import Polaroid

  /** Movement of the hand x below this per frame is noise. */
  const MOVE_THRESHOLD: real := 0.001
  /** Angular velocity added per unit of hand movement. */
  const IMPULSE_GAIN: real := 5.0
  /** Fraction of the angular velocity kept each frame. */
  const DAMPING: real := 0.95
  /** Bound on the angular velocity in either direction. */
  const MAX_SPIN: real := 5.0
  /** Speeds strictly below this are snapped to rest. */
  const REST_SPEED: real := 0.001

  // ---------------------------------------------------------------------
  // Morph
  // ---------------------------------------------------------------------

  /** `lerp(morph, targetState, delta * 2)`; the factor is not clamped. */
  function MorphStep(morph: real, target: TreeState, delta: real): real
  {
    Lerp(morph, target.Value(), delta * 2.0)
  }

  /**
   * When the factor `2 delta` is in [0, 1] the morph value stays in [0, 1],
   * moves monotonically towards its target and closes the gap by exactly
   * the factor `1 - 2 delta`: it never overshoots.
   */
  lemma MorphStepApproach(morph: real, target: TreeState, delta: real)
    requires 0.0 <= morph <= 1.0
    requires 0.0 <= 2.0 * delta <= 1.0
    ensures 0.0 <= MorphStep(morph, target, delta) <= 1.0
    ensures Abs(MorphStep(morph, target, delta) - target.Value()) == (1.0 - 2.0 * delta) * Abs(morph - target.Value())
    ensures target == Tree ==> morph <= MorphStep(morph, target, delta)
    ensures target == Scattered ==> MorphStep(morph, target, delta) <= morph
  {
    LerpGap(morph, target.Value(), delta * 2.0);
    LerpBetween(morph, target.Value(), delta * 2.0);
  }

  /** The morph value after n frames with the same target and frame time. */
  function MorphN(morph: real, target: TreeState, delta: real, n: nat): real
  {
    if n == 0 then morph else MorphStep(MorphN(morph, target, delta, n - 1), target, delta)
  }

  /** Iterating the morph step is iterating a lerp towards the target value with factor `2 delta`. */
  lemma {:induction false} MorphIsLerpIter(morph: real, target: TreeState, delta: real, n: nat)
    ensures MorphN(morph, target, delta, n) == LerpIter(morph, target.Value(), delta * 2.0, n)
  {
    if n > 0 {
      MorphIsLerpIter(morph, target, delta, n - 1);
    }
  }

  /** The signed gap to the target after n frames is `(1 - 2 delta)^n` times the initial one, for any frame time. */
  lemma MorphGap(morph: real, target: TreeState, delta: real, n: nat)
    ensures MorphN(morph, target, delta, n) - target.Value() == Pow(1.0 - 2.0 * delta, n) * (morph - target.Value())
  {
    MorphIsLerpIter(morph, target, delta, n);
    LerpIterGap(morph, target.Value(), delta * 2.0, n);
    assert 1.0 - delta * 2.0 == 1.0 - 2.0 * delta;
  }

  /** With the factor `2 delta` in [0, 1] the morph value never leaves [0, 1]. */
  lemma {:induction false} MorphRange(morph: real, target: TreeState, delta: real, n: nat)
    requires 0.0 <= morph <= 1.0
    requires 0.0 <= 2.0 * delta <= 1.0
    ensures 0.0 <= MorphN(morph, target, delta, n) <= 1.0
  {
    if n > 0 {
      MorphRange(morph, target, delta, n - 1);
      MorphStepApproach(MorphN(morph, target, delta, n - 1), target, delta);
    }
  }

  /**
   * Held at one target, the morph value converges geometrically: after n
   * frames the gap is `(1 - 2 delta)^n` times the initial gap, and the value
   * stays in [0, 1].
   */
  lemma MorphConverges(morph: real, target: TreeState, delta: real, n: nat)
    requires 0.0 <= morph <= 1.0
    requires 0.0 <= 2.0 * delta <= 1.0
    ensures 0.0 <= MorphN(morph, target, delta, n) <= 1.0
    ensures Abs(MorphN(morph, target, delta, n) - target.Value()) == Pow(1.0 - 2.0 * delta, n) * Abs(morph - target.Value())
  {
    var q := 1.0 - 2.0 * delta;
    MorphRange(morph, target, delta, n);
    MorphGap(morph, target, delta, n);
    PowUnitInterval(q, n);
    AbsMul(Pow(q, n), morph - target.Value());
  }

  /** Forming the tree from fully scattered: after n frames the morph value is `1 - (1 - 2 delta)^n`. */
  lemma FormingFromScattered(delta: real, n: nat)
    requires 0.0 <= 2.0 * delta <= 1.0
    ensures MorphN(0.0, Tree, delta, n) == 1.0 - Pow(1.0 - 2.0 * delta, n)
    ensures 0.0 <= MorphN(0.0, Tree, delta, n) <= 1.0
  {
    MorphConverges(0.0, Tree, delta, n);
  }

  // ---------------------------------------------------------------------
  // Angular velocity
  // ---------------------------------------------------------------------

  /** The resting-or-moving invariant of the spin: bounded, and either exactly 0 or at least the rest speed. */
  ghost predicate SpinInvariant(v: real)
  {
    -MAX_SPIN <= v <= MAX_SPIN && (v == 0.0 || Abs(v) >= REST_SPEED)
  }

  /** The impulse: only in TREE mode and only when the hand moved by more than the noise threshold. */
  function Kick(v: real, mode: TreeState, dx: real): (r: real)
    ensures r != v ==> mode == Tree && Abs(dx) > MOVE_THRESHOLD
    ensures mode == Tree && Abs(dx) > MOVE_THRESHOLD ==> r - v == dx * IMPULSE_GAIN
  {
    if mode == Tree && Abs(dx) > MOVE_THRESHOLD then v + dx * IMPULSE_GAIN else v
  }

  /** Damping, then the cap to [-5, 5], then the stop below the rest speed. */
  function Settle(v: real): (r: real)
    ensures SpinInvariant(r)
    ensures Abs(r) <= DAMPING * Abs(v)
    ensures v >= 0.0 ==> r >= 0.0
    ensures v <= 0.0 ==> r <= 0.0
    ensures Abs(v) <= MAX_SPIN && DAMPING * Abs(v) >= REST_SPEED ==> r == DAMPING * v
  {
    var damped := v * DAMPING;
    var capped := Clamp(damped, -MAX_SPIN, MAX_SPIN);
    if Abs(capped) < REST_SPEED then 0.0 else capped
  }

  /** The angular velocity after n frames without an impulse. */
  function SettleN(v: real, n: nat): real
  {
    if n == 0 then v else Settle(SettleN(v, n - 1))
  }

  /** Gliding never speeds up and never changes direction. */
  lemma GlideMonotone(v: real, n: nat)
    ensures Abs(SettleN(v, n + 1)) <= Abs(SettleN(v, n))
    ensures v >= 0.0 ==> SettleN(v, n) >= 0.0
    ensures v <= 0.0 ==> SettleN(v, n) <= 0.0
  {
    if n > 0 {
      GlideMonotone(v, n - 1);
    }
  }

  /** A speed bound shrinks by the damping factor. */
  lemma SettleWithin(p: real, c: real)
    requires Abs(p) <= c
    ensures Abs(Settle(p)) <= DAMPING * c
  {
    ScaleBound(DAMPING, Abs(Settle(p)), Abs(p), c);
  }

  /** The speed bound after n damped frames, `0.95^n a`, built up one frame at a time. */
  function GlideBound(a: real, n: nat): real
  {
    if n == 0 then a else DAMPING * GlideBound(a, n - 1)
  }

  lemma {:induction false} GlideBoundIsPow(a: real, n: nat)
    ensures GlideBound(a, n) == Pow(DAMPING, n) * a
  {
    if n > 0 {
      GlideBoundIsPow(a, n - 1);
      MulAssoc(DAMPING, Pow(DAMPING, n - 1), a);
    }
  }

  /** Gliding loses at least the damping factor each frame: `|v_n| <= 0.95^n |v_0|` (with `GlideBoundIsPow`). */
  lemma {:induction false} GlideDecay(v: real, n: nat)
    ensures Abs(SettleN(v, n)) <= GlideBound(Abs(v), n)
  {
    if n > 0 {
      GlideDecay(v, n - 1);
      SettleWithin(SettleN(v, n - 1), GlideBound(Abs(v), n - 1));
    }
  }

  lemma SquareAtMost(p: real, b: real)
    requires 0.0 <= p <= b
    ensures p * p <= b * b
  {
    MulAtMost(p, p, b);
    MulAtMost(b, p, b);
  }

  lemma SquareAtLeast(p: real, b: real)
    requires 0.0 <= b <= p
    ensures b * b <= p * p
  {
    SquareAtMost(b, p);
  }

  /** Squaring a bound on a power of the damping factor bounds the doubled power. */
  lemma DampingSquareUpper(n: nat, b: real)
    requires Pow(DAMPING, n) <= b
    ensures Pow(DAMPING, 2 * n) <= b * b
  {
    PowUnitInterval(DAMPING, n);
    PowAdd(DAMPING, n, n);
    SquareAtMost(Pow(DAMPING, n), b);
  }

  lemma DampingSquareLower(n: nat, b: real)
    requires 0.0 <= b <= Pow(DAMPING, n)
    ensures b * b <= Pow(DAMPING, 2 * n)
  {
    PowAdd(DAMPING, n, n);
    SquareAtLeast(Pow(DAMPING, n), b);
  }

  /** Multiplying bounds on two powers of the damping factor bounds the power of the summed exponents. */
  lemma DampingProductUpper(m: nat, n: nat, a: real, b: real)
    requires Pow(DAMPING, m) <= a && Pow(DAMPING, n) <= b
    ensures Pow(DAMPING, m + n) <= a * b
  {
    PowUnitInterval(DAMPING, m);
    PowUnitInterval(DAMPING, n);
    PowAdd(DAMPING, m, n);
    MulAtMost(Pow(DAMPING, m), Pow(DAMPING, n), b);
    MulAtMost(b, Pow(DAMPING, m), a);
  }

  lemma DampingProductLower(m: nat, n: nat, a: real, b: real)
    requires 0.0 <= a <= Pow(DAMPING, m) && 0.0 <= b <= Pow(DAMPING, n)
    ensures a * b <= Pow(DAMPING, m + n)
  {
    PowAdd(DAMPING, m, n);
    MulAtMost(a, b, Pow(DAMPING, n));
    MulAtMost(Pow(DAMPING, n), a, Pow(DAMPING, m));
    assert a * b <= a * Pow(DAMPING, n) <= Pow(DAMPING, m) * Pow(DAMPING, n);
  }

  /** Rounded-up bounds on `0.95^(2^k)`. */
  lemma DampingPowersUpper()
    ensures Pow(DAMPING, 2) == 0.9025 && Pow(DAMPING, 3) == 0.857375
    ensures Pow(DAMPING, 4) <= 0.814507
    ensures Pow(DAMPING, 32) <= 0.193714
    ensures Pow(DAMPING, 128) <= 0.001409
  {
    DampingSquareUpper(2, 0.9025);
    DampingSquareUpper(4, 0.814507);
    DampingSquareUpper(8, 0.663422);
    DampingSquareUpper(16, 0.440129);
    DampingSquareUpper(32, 0.193714);
    DampingSquareUpper(64, 0.037526);
  }

  /** Rounded-down bounds on `0.95^(2^k)`. */
  lemma DampingPowersLower()
    ensures Pow(DAMPING, 4) >= 0.8145062
    ensures Pow(DAMPING, 32) >= 0.1937112
    ensures Pow(DAMPING, 128) >= 0.001408
  {
    assert Pow(DAMPING, 2) == 0.9025;
    DampingSquareLower(2, 0.9025);
    DampingSquareLower(4, 0.8145062);
    DampingSquareLower(8, 0.6634203);
    DampingSquareLower(16, 0.4401264);
    DampingSquareLower(32, 0.1937112);
    DampingSquareLower(64, 0.037524);
  }

  /** `0.95^167 < 0.0002`: 167 = 128 + 32 + 4 + 3. */
  lemma DampingPowUpper()
    ensures Pow(DAMPING, 167) < 0.0002
  {
    DampingPowersUpper();
    DampingProductUpper(128, 32, 0.001409, 0.193714);
    DampingProductUpper(160, 4, 0.001409 * 0.193714, 0.814507);
    DampingProductUpper(164, 3, 0.001409 * 0.193714 * 0.814507, 0.857375);
  }

  /** `0.95^166 >= 0.0002`: 166 = 128 + 32 + 4 + 2. */
  lemma DampingPowLower()
    ensures Pow(DAMPING, 166) >= 0.0002
  {
    DampingPowersUpper();
    DampingPowersLower();
    DampingProductLower(128, 32, 0.001408, 0.1937112);
    DampingProductLower(160, 4, 0.001408 * 0.1937112, 0.8145062);
    DampingProductLower(164, 2, 0.001408 * 0.1937112 * 0.8145062, 0.9025);
  }

  /** A non-negative bound never grows with the number of damped frames. */
  lemma {:induction false} GlideBoundAntitone(a: real, m: nat, n: nat)
    requires a >= 0.0 && m <= n
    ensures 0.0 <= GlideBound(a, n) <= GlideBound(a, m)
    decreases n, m
  {
    if m < n {
      GlideBoundAntitone(a, m, n - 1);
    } else if n > 0 {
      GlideBoundAntitone(a, 0, n);
    }
  }

  /** After 167 frames even the largest legal speed is damped below the rest speed. */
  lemma GlideBoundAtRest(a: real)
    requires 0.0 <= a <= MAX_SPIN
    ensures GlideBound(a, 167) < REST_SPEED
  {
    GlideBoundIsPow(a, 167);
    DampingPowUpper();
    PowUnitInterval(DAMPING, 167);
    var k := Pow(DAMPING, 167);
    assert GlideBound(a, 167) == k * a;
    if a > 0.0 {
      MulLess(a, k, 0.0002);
      assert k * a < 0.0002 * a;
    }
    assert 0.0002 * a <= 0.001;
  }

  /** After 166 frames the bound from full speed is still at least the rest speed. */
  lemma GlideBoundAboveRest()
    ensures GlideBound(MAX_SPIN, 166) >= REST_SPEED
  {
    GlideBoundIsPow(MAX_SPIN, 166);
    DampingPowLower();
  }

  /**
   * Eventual rest: from any legal speed, 167 frames without an impulse stop
   * the spin exactly, and it stays stopped.
   */
  lemma {:induction false} RestWithin167(v: real, n: nat)
    requires -MAX_SPIN <= v <= MAX_SPIN
    requires n >= 167
    ensures SettleN(v, n) == 0.0
  {
    if n == 167 {
      GlideDecay(v, 167);
      GlideBoundAtRest(Abs(v));
    } else {
      RestWithin167(v, n - 1);
    }
  }

  /** From full speed, the first 166 glide frames are pure damping: the speed is `5 * 0.95^n`. */
  lemma {:induction false} GlideFromFullSpeed(n: nat)
    requires n <= 166
    ensures SettleN(MAX_SPIN, n) == GlideBound(MAX_SPIN, n)
    ensures SettleN(MAX_SPIN, n) == MAX_SPIN * Pow(DAMPING, n)
  {
    if n > 0 {
      GlideFromFullSpeed(n - 1);
      GlideBoundAntitone(MAX_SPIN, 0, n - 1);
      GlideBoundAntitone(MAX_SPIN, n, 166);
      GlideBoundAboveRest();
    }
    GlideBoundIsPow(MAX_SPIN, n);
  }

  /** The bound 167 is tight: from full speed the spin is still moving after 166 frames. */
  lemma RestBoundIsTight()
    ensures SettleN(MAX_SPIN, 166) != 0.0
    ensures SettleN(MAX_SPIN, 167) == 0.0
  {
    GlideFromFullSpeed(166);
    DampingPowLower();
    RestWithin167(MAX_SPIN, 167);
  }

  // ---------------------------------------------------------------------
  // Tilt and scale of the tree group
  // ---------------------------------------------------------------------

  /** The yaw integrates the angular velocity over the frame time. */
  function YawStep(yaw: real, spin: real, delta: real): real
  {
    yaw + spin * delta
  }

  /** Pitch moves directly (no inertia) towards `handY * 0.3` with factor `delta * 2`. */
  function PitchStep(pitch: real, handY: real, delta: real): real
  {
    Lerp(pitch, handY * 0.3, delta * 2.0)
  }

  /** Scale moves towards the configured tree scale with factor `delta * 5`. */
  function ScaleStep(scale: real, treeScale: real, delta: real): real
  {
    Lerp(scale, treeScale, delta * 5.0)
  }

  /** With the hand inside [-1, 1] and `2 delta <= 1`, the tilt stays within 0.3 of level. */
  lemma PitchStaysBounded(pitch: real, handY: real, delta: real)
    requires -0.3 <= pitch <= 0.3
    requires -1.0 <= handY <= 1.0
    requires 0.0 <= 2.0 * delta <= 1.0
    ensures -0.3 <= PitchStep(pitch, handY, delta) <= 0.3
    ensures Abs(PitchStep(pitch, handY, delta) - handY * 0.3) == (1.0 - 2.0 * delta) * Abs(pitch - handY * 0.3)
  {
    LerpInInterval(pitch, handY * 0.3, delta * 2.0, -0.3, 0.3);
    LerpGap(pitch, handY * 0.3, delta * 2.0);
  }

  /**
   * With the scale and the slider value in the slider range [0.5, 1.5] and
   * `5 delta <= 1`, the group scale stays in that range and approaches the
   * slider value without overshoot.
   */
  lemma ScaleStaysInSliderRange(scale: real, treeScale: real, delta: real)
    requires 0.5 <= scale <= 1.5 && 0.5 <= treeScale <= 1.5
    requires 0.0 <= 5.0 * delta <= 1.0
    ensures 0.5 <= ScaleStep(scale, treeScale, delta) <= 1.5
    ensures Abs(ScaleStep(scale, treeScale, delta) - treeScale) == (1.0 - 5.0 * delta) * Abs(scale - treeScale)
  {
    LerpInInterval(scale, treeScale, delta * 5.0, 0.5, 1.5);
    LerpGap(scale, treeScale, delta * 5.0);
  }

  // ---------------------------------------------------------------------
  // The controller
  // ---------------------------------------------------------------------

  /**
   * The refs of the scene component (`morphRef`, `angularVelocity`,
   * `lastHandX`, `isDragging`), the rotation and scale of the tree group
   * (which three.js creates at rotation 0 and scale 1) and the state
   * `focusedIndex` of the wrapped layers.
   */
  class SceneState {
    var morph: real
    var angularVelocity: real
    var lastHandX: real
    var isDragging: bool
    var yaw: real
    var pitch: real
    var scale: real
    var focusedIndex: Polaroid.Focus

    ghost predicate Valid()
      reads this
    {
      SpinInvariant(angularVelocity)
    }

    /** Mounting: `lastHandX` starts at the hand x of the first render. */
    constructor (handX: real)
      ensures Valid()
      ensures morph == 0.0 && angularVelocity == 0.0 && lastHandX == handX && !isDragging
      ensures yaw == 0.0 && pitch == 0.0 && scale == 1.0
      ensures focusedIndex == Polaroid.NoFocus
    {
      morph := 0.0;
      angularVelocity := 0.0;
      lastHandX := handX;
      isDragging := false;
      yaw := 0.0;
      pitch := 0.0;
      scale := 1.0;
      focusedIndex := Polaroid.NoFocus;
    }

    /**
     * One frame of the `useFrame` callback, with the props of the latest
     * render and the frame time `delta`.
     */
    method Tick(target: TreeState, handX: real, handY: real, treeScale: real, delta: real)
      requires Valid()
      modifies this
      ensures Valid()
      ensures morph == MorphStep(old(morph), target, delta)
      ensures angularVelocity == Settle(Kick(old(angularVelocity), target, handX - old(lastHandX)))
      ensures isDragging == if target == Tree then Abs(handX - old(lastHandX)) > MOVE_THRESHOLD else old(isDragging)
      ensures yaw == YawStep(old(yaw), angularVelocity, delta)
      ensures pitch == PitchStep(old(pitch), handY, delta)
      ensures scale == ScaleStep(old(scale), treeScale, delta)
      ensures lastHandX == handX
      ensures focusedIndex == old(focusedIndex)
    {
      morph := Lerp(morph, target.Value(), delta * 2.0);

      if target == Tree {
        var dx := handX - lastHandX;
        if Abs(dx) > MOVE_THRESHOLD {
          isDragging := true;
          angularVelocity := angularVelocity + dx * IMPULSE_GAIN;
        } else {
          isDragging := false;
        }
      }

      var spin := angularVelocity * DAMPING;
      spin := Clamp(spin, -MAX_SPIN, MAX_SPIN);
      if Abs(spin) < REST_SPEED {
        spin := 0.0;
      }
      angularVelocity := spin;

      yaw := YawStep(yaw, spin, delta);
      var targetRotX := handY * 0.3;
      pitch := Lerp(pitch, targetRotX, delta * 2.0);
      scale := Lerp(scale, treeScale, delta * 5.0);

      lastHandX := handX;
    }

    /** A click on photo `index`: `handleToggle` applied to the focus state. */
    method ToggleFocus(index: nat)
      modifies this
      ensures focusedIndex == Polaroid.Toggle(old(focusedIndex), index)
      ensures morph == old(morph) && angularVelocity == old(angularVelocity) && lastHandX == old(lastHandX)
      ensures isDragging == old(isDragging) && yaw == old(yaw) && pitch == old(pitch) && scale == old(scale)
    {
      focusedIndex := Polaroid.Toggle(focusedIndex, index);
    }
  }

  /** Every tick keeps the spin bounded and either stopped or above the rest speed; the step moves the yaw by at most `5 delta`. */
  lemma TickBounds(v: real, mode: TreeState, dx: real, yaw: real, delta: real)
    requires delta >= 0.0
    ensures SpinInvariant(Settle(Kick(v, mode, dx)))
    ensures Abs(YawStep(yaw, Settle(Kick(v, mode, dx)), delta) - yaw) <= MAX_SPIN * delta
  {
    var w := Settle(Kick(v, mode, dx));
    AbsMulBound(w, MAX_SPIN, delta);
    assert YawStep(yaw, w, delta) - yaw == w * delta;
  }

  /**
   * Without an impulse (SCATTERED mode, or a hand that moved by at most the
   * noise threshold) a tick only settles the velocity.
   */
  lemma NoImpulseOnlySettles(v: real, mode: TreeState, dx: real)
    requires mode == Scattered || Abs(dx) <= MOVE_THRESHOLD
    ensures Settle(Kick(v, mode, dx)) == Settle(v)
  {
  }
}
