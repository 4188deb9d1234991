/**
 * The snow layer: the loop that fills the position, random and size
 * buffers with flakes in a hollow cylinder around the tree, the height wrap
 * of the vertex shader that keeps falling flakes between -10 and 30, and
 * the `uVelocity` uniform that follows ten times the scene's angular
 * velocity.  The draws of `Math.random()` are parameters; the angle
 * `theta = 2 PI rand` comes as its cosine and sine.
 */
module Snow {
  import opened Numerics
  import opened Geometry
  import Scene

  const SNOW_COUNT: nat := 3000
  /** The vertical period of the fall: flakes wrap from -10 back to 30. */
  const WRAP_HEIGHT: real := 40.0
  const WRAP_FLOOR: real := -10.0
  /** How far the wind uniform moves towards its target per frame, and the target's gain. */
  const VELOCITY_RATE: real := 0.05
  const VELOCITY_GAIN: real := 10.0
  /** The bound the wind uniform keeps: the spin bound times the gain. */
  const MAX_VELOCITY: real := 50.0

  /** The draws of one flake, in the loop's order. */
  datatype SnowDraw = SnowDraw(r: real, theta: Angle, y: real, rx: real, ry: real, rz: real, size: real)

  ghost predicate ValidDraw(d: SnowDraw)
  {
    && 0.0 <= d.r < 1.0 && OnUnitCircle(d.theta) && 0.0 <= d.y < 1.0
    && 0.0 <= d.rx < 1.0 && 0.0 <= d.ry < 1.0 && 0.0 <= d.rz < 1.0
    && 0.0 <= d.size < 1.0
  }

  function FlakeRadius(d: SnowDraw): real
  {
    2.0 + d.r * 15.0
  }

  function FlakeHeight(d: SnowDraw): real
  {
    (d.y - 0.25) * 40.0
  }

  function FlakePosition(d: SnowDraw): Vec3
  {
    Cylindrical(FlakeRadius(d), FlakeHeight(d), d.theta)
  }

  function FlakeRandom(d: SnowDraw): Vec3
  {
    Vec3(d.rx, d.ry, d.rz)
  }

  function FlakeSize(d: SnowDraw): real
  {
    d.size * 0.5 + 0.2
  }

  /**
   * A flake starts between 2 and 17 from the axis, at a height in
   * [-10, 30), with a size in [0.2, 0.7).
   */
  lemma DrawRanges(d: SnowDraw)
    requires ValidDraw(d)
    ensures 2.0 <= FlakeRadius(d) < 17.0
    ensures -10.0 <= FlakeHeight(d) < 30.0 && FlakePosition(d).y == FlakeHeight(d)
    ensures HorizontalNormSq(FlakePosition(d)) == FlakeRadius(d) * FlakeRadius(d)
    ensures 0.2 <= FlakeSize(d) < 0.7
  {
    CylindricalRadius(FlakeRadius(d), FlakeHeight(d), d.theta);
  }

  /** Point i of a flat buffer of three floats per point. */
  function Slot(a: array<real>, i: nat): Vec3
    reads a
    requires 3 * i + 2 < a.Length
  {
    Vec3(a[3 * i], a[3 * i + 1], a[3 * i + 2])
  }

  /**
   * One pass of the generation loop: writes flake i of the position and
   * random buffers and entry i of the size buffer, and nothing else.
   */
  method WriteFlake(pos: array<real>, rnd: array<real>, sz: array<real>, i: nat, d: SnowDraw)
    requires 3 * i + 2 < pos.Length == rnd.Length && i < sz.Length
    requires pos != rnd && pos != sz && rnd != sz
    modifies pos, rnd, sz
    ensures Slot(pos, i) == FlakePosition(d) && Slot(rnd, i) == FlakeRandom(d) && sz[i] == FlakeSize(d)
    ensures forall k: nat :: k != i && 3 * k + 2 < pos.Length ==>
      Slot(pos, k) == old(Slot(pos, k)) && Slot(rnd, k) == old(Slot(rnd, k))
    ensures forall k :: 0 <= k < sz.Length && k != i ==> sz[k] == old(sz[k])
  {
    var r := 2.0 + d.r * 15.0;
    var y := (d.y - 0.25) * 40.0;
    pos[i * 3], pos[i * 3 + 1], pos[i * 3 + 2] := r * d.theta.cos, y, r * d.theta.sin;
    rnd[i * 3], rnd[i * 3 + 1], rnd[i * 3 + 2] := d.rx, d.ry, d.rz;
    sz[i] := d.size * 0.5 + 0.2;
  }

  /**
   * The generation loop: every flake slot of the three buffers is written
   * from its own draw.
   */
  method Generate(draws: seq<SnowDraw>) returns (positions: array<real>, randoms: array<real>, sizes: array<real>)
    ensures fresh(positions) && fresh(randoms) && fresh(sizes)
    ensures positions.Length == 3 * |draws| && randoms.Length == 3 * |draws| && sizes.Length == |draws|
    ensures forall i :: 0 <= i < |draws| ==>
      && Slot(positions, i) == FlakePosition(draws[i])
      && Slot(randoms, i) == FlakeRandom(draws[i])
      && sizes[i] == FlakeSize(draws[i])
  {
    var n := |draws|;
    positions := new real[3 * n];
    randoms := new real[3 * n];
    sizes := new real[n];
    for i := 0 to n
      invariant forall k :: 0 <= k < i ==> Slot(positions, k) == FlakePosition(draws[k])
      invariant forall k :: 0 <= k < i ==> Slot(randoms, k) == FlakeRandom(draws[k])
      invariant forall k :: 0 <= k < i ==> sizes[k] == FlakeSize(draws[k])
    {
      WriteFlake(positions, randoms, sizes, i, draws[i]);
    }
  }

  // ---------------------------------------------------------------------
  // The fall in the vertex shader
  // ---------------------------------------------------------------------

  /** `mod(y + 10, 40) - 10`. */
  function WrapHeight(y: real): real
  {
    GlslMod(y - WRAP_FLOOR, WRAP_HEIGHT) + WRAP_FLOOR
  }

  /** A flake that has fallen for `time` seconds at speed `2 + aRandom.y`, wrapped. */
  function FallenHeight(y: real, time: real, ry: real): real
  {
    WrapHeight(y - time * (2.0 + ry))
  }

  /** The wrapped height is always in [-10, 30). */
  lemma WrapRange(y: real)
    ensures -10.0 <= WrapHeight(y) < 30.0
  {
  }

  /** Heights already in [-10, 30), the range the flakes are generated in, are kept as they are. */
  lemma WrapKeepsRange(y: real)
    requires -10.0 <= y < 30.0
    ensures WrapHeight(y) == y
  {
    var q := (y + 10.0) / 40.0;
    assert 0.0 <= q < 1.0;
    assert q.Floor == 0;
  }

  /** Falling 40 further lands at the same wrapped height. */
  lemma WrapPeriodic(y: real)
    ensures WrapHeight(y - WRAP_HEIGHT) == WrapHeight(y)
  {
    var q := (y + 10.0) / 40.0;
    assert (y - 40.0 + 10.0) / 40.0 == q - 1.0;
    assert (q - 1.0).Floor == q.Floor - 1;
  }

  /** At time 0 every generated flake is drawn at its generated height. */
  lemma FallStartsAtGeneratedHeight(d: SnowDraw)
    requires ValidDraw(d)
    ensures FallenHeight(FlakePosition(d).y, 0.0, d.ry) == FlakeHeight(d)
  {
    DrawRanges(d);
    WrapKeepsRange(FlakeHeight(d));
  }

  // ---------------------------------------------------------------------
  // The wind uniform
  // ---------------------------------------------------------------------

  /** `lerp(uVelocity, angularVelocity * 10, 0.05)`. */
  function VelocityStep(u: real, spin: real): real
  {
    Lerp(u, spin * VELOCITY_GAIN, VELOCITY_RATE)
  }

  /** The uniform after following a sequence of angular velocities, one per frame. */
  function VelocityAfter(u: real, spins: seq<real>): real
  {
    if spins == [] then u else VelocityStep(VelocityAfter(u, spins[..|spins| - 1]), spins[|spins| - 1])
  }

  /** One step keeps the uniform within 50 and closes 5% of the gap to its target. */
  lemma VelocityStepBounded(u: real, spin: real)
    requires Abs(u) <= MAX_VELOCITY && Abs(spin) <= Scene.MAX_SPIN
    ensures Abs(VelocityStep(u, spin)) <= MAX_VELOCITY
    ensures Abs(VelocityStep(u, spin) - spin * VELOCITY_GAIN) == 0.95 * Abs(u - spin * VELOCITY_GAIN)
  {
    LerpInInterval(u, spin * VELOCITY_GAIN, VELOCITY_RATE, -MAX_VELOCITY, MAX_VELOCITY);
    LerpGap(u, spin * VELOCITY_GAIN, VELOCITY_RATE);
  }

  /**
   * Fed by angular velocities that keep the scene's spin invariant, the
   * uniform never leaves [-50, 50] when it starts there (it starts at 0).
   */
  lemma {:induction false} VelocityStaysBounded(u: real, spins: seq<real>)
    requires Abs(u) <= MAX_VELOCITY
    requires forall k :: 0 <= k < |spins| ==> Scene.SpinInvariant(spins[k])
    ensures Abs(VelocityAfter(u, spins)) <= MAX_VELOCITY
  {
    if spins != [] {
      VelocityStaysBounded(u, spins[..|spins| - 1]);
      VelocityStepBounded(VelocityAfter(u, spins[..|spins| - 1]), spins[|spins| - 1]);
    }
  }

  /**
   * The layer: its three buffers, filled once for SNOW_COUNT flakes, and the
   * two uniforms the frame callback writes (both 0 at first).
   */
  class SnowLayer {
    const positions: array<real>
    const randoms: array<real>
    const sizes: array<real>
    var uTime: real
    var uVelocity: real

    constructor (draws: seq<SnowDraw>)
      requires |draws| == SNOW_COUNT
      ensures positions.Length == 3 * SNOW_COUNT && randoms.Length == 3 * SNOW_COUNT && sizes.Length == SNOW_COUNT
      ensures forall i :: 0 <= i < SNOW_COUNT ==>
        && Slot(positions, i) == FlakePosition(draws[i])
        && Slot(randoms, i) == FlakeRandom(draws[i])
        && sizes[i] == FlakeSize(draws[i])
      ensures uTime == 0.0 && uVelocity == 0.0
    {
      var p, r, s := Generate(draws);
      positions, randoms, sizes := p, r, s;
      uTime, uVelocity := 0.0, 0.0;
    }

    /** The frame callback: copy the clock and smooth the wind towards ten times the spin. */
    method Frame(elapsed: real, angularVelocity: real)
      modifies this
      ensures uTime == elapsed
      ensures uVelocity == VelocityStep(old(uVelocity), angularVelocity)
      ensures Abs(old(uVelocity)) <= MAX_VELOCITY && Scene.SpinInvariant(angularVelocity) ==> Abs(uVelocity) <= MAX_VELOCITY
    {
      uTime := elapsed;
      uVelocity := Lerp(uVelocity, angularVelocity * 10.0, 0.05);
      if Abs(old(uVelocity)) <= MAX_VELOCITY && Scene.SpinInvariant(angularVelocity) {
        VelocityStepBounded(old(uVelocity), angularVelocity);
      }
    }
  }
}
