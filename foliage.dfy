/**
 * The foliage point cloud: the generation loop that fills the flat attribute
 * buffers (three floats per point for positions, one for sizes and randoms),
 * the vertex-shader formula that places and fades each point, and the `uWind`
 * uniform that follows the scene's angular velocity.
 */
module Foliage {
  import opened Numerics
  import opened Geometry
  import opened Types
  import Scene

  /** The uniform draws of one point, in the loop's order; the angles come as unit pairs. */
  datatype FoliageDraw = FoliageDraw(
    h: real, r: real, theta: Angle,
    u: real, phi: Angle, lam: Angle, sr: real,
    size: real, rnd: real)

  ghost predicate ValidDraw(d: FoliageDraw)
  {
    && 0.0 <= d.h < 1.0 && 0.0 <= d.r < 1.0 && OnUnitCircle(d.theta)
    && IsSphereLatitude(d.u, d.phi) && OnUnitCircle(d.lam) && 0.0 <= d.sr < 1.0
    && 0.0 <= d.size < 1.0 && 0.0 <= d.rnd < 1.0
  }

  function PointHeight(d: FoliageDraw): real
  {
    (d.h - 0.5) * TREE_HEIGHT
  }

  function PointRadius(d: FoliageDraw): real
  {
    d.r * TREE_RADIUS * RadiusRatio(PointHeight(d))
  }

  function TreeAnchor(d: FoliageDraw): Vec3
  {
    Cylindrical(PointRadius(d), PointHeight(d), d.theta)
  }

  function ScatterRadius(d: FoliageDraw): real
  {
    SCATTER_RADIUS * (0.5 + d.sr * 0.5)
  }

  function ScatterAnchor(d: FoliageDraw): Vec3
  {
    SpherePoint(ScatterRadius(d), d.phi, d.lam)
  }

  function PointSize(d: FoliageDraw): real
  {
    d.size * 1.5 + 0.5
  }

  /**
   * The tree anchor fills the solid cone: height in [-6, 6), rRatio in (0, 1]
   * and distance from the axis in [0, TREE_RADIUS * rRatio).  The scatter
   * anchor lies on the shell of radius sr in [7.5, 15); sizes are in [0.5, 2).
   */
  lemma AnchorRanges(d: FoliageDraw)
    requires ValidDraw(d)
    ensures -6.0 <= PointHeight(d) < 6.0 && TreeAnchor(d).y == PointHeight(d)
    ensures 0.0 < RadiusRatio(PointHeight(d)) <= 1.0
    ensures 0.0 <= PointRadius(d) < TREE_RADIUS * RadiusRatio(PointHeight(d))
    ensures HorizontalNormSq(TreeAnchor(d)) == PointRadius(d) * PointRadius(d)
    ensures 7.5 <= ScatterRadius(d) < 15.0
    ensures NormSq(ScatterAnchor(d)) == ScatterRadius(d) * ScatterRadius(d)
    ensures 0.5 <= PointSize(d) < 2.0
  {
    PointRadiusBound(d);
    CylindricalRadius(PointRadius(d), PointHeight(d), d.theta);
    SpherePointRadius(ScatterRadius(d), d.phi, d.lam);
  }

  lemma PointRadiusBound(d: FoliageDraw)
    requires ValidDraw(d)
    ensures 0.0 < RadiusRatio(PointHeight(d)) <= 1.0
    ensures 0.0 <= PointRadius(d) < TREE_RADIUS * RadiusRatio(PointHeight(d))
  {
    var h := PointHeight(d);
    assert -6.0 <= h < 6.0;
    var ratio := RadiusRatio(h);
    assert 0.0 < ratio;
    ConeFactorBound(PointRadius(d), d.r, ratio);
  }

  /** A draw in [0, 1) applied to the cone radius at a positive radius ratio stays below that radius. */
  lemma ConeFactorBound(v: real, r: real, rr: real)
    requires v == r * TREE_RADIUS * rr && 0.0 <= r < 1.0 && rr > 0.0
    ensures 0.0 <= v < TREE_RADIUS * rr
  {
    MulAssoc(r, TREE_RADIUS, rr);
    ScaledWithin(r, TREE_RADIUS * rr, 0.0, 1.0);
  }

  /** Point i of a flat buffer of three floats per point. */
  function Slot(a: array<real>, i: nat): Vec3
    reads a
    requires 3 * i + 2 < a.Length
  {
    Vec3(a[3 * i], a[3 * i + 1], a[3 * i + 2])
  }

  /** The body of the loop for the tree anchor: height, cone ratio, radius, then the point. */
  method TreePoint(d: FoliageDraw) returns (p: Vec3)
    ensures p == TreeAnchor(d)
  {
    var h := (d.h - 0.5) * TREE_HEIGHT;
    var rRatio := 1.0 - ((h + TREE_HEIGHT / 2.0) / TREE_HEIGHT);
    var r := d.r * TREE_RADIUS * rRatio;
    p := Vec3(r * d.theta.cos, h, r * d.theta.sin);
  }

  /** The body of the loop for the scatter anchor: shell radius, then the point. */
  method ScatterPoint(d: FoliageDraw) returns (p: Vec3)
    ensures p == ScatterAnchor(d)
  {
    var sr := SCATTER_RADIUS * (0.5 + d.sr * 0.5);
    p := Vec3(sr * d.phi.cos * d.lam.cos, sr * d.phi.cos * d.lam.sin, sr * d.phi.sin);
  }

  /**
   * One pass of the generation loop: writes point i of the three position
   * buffers (three floats each, the initial positions copied from the
   * scatter buffer) and entry i of the size and random buffers, and nothing else.
   */
  method WritePoint(positions: array<real>, treePositions: array<real>, scatterPositions: array<real>,
                    sizes: array<real>, randoms: array<real>, i: nat, d: FoliageDraw)
    requires 3 * i + 2 < positions.Length == treePositions.Length == scatterPositions.Length
    requires i < sizes.Length == randoms.Length
    requires positions != treePositions && positions != scatterPositions && treePositions != scatterPositions
    requires sizes != randoms
    requires sizes != positions && sizes != treePositions && sizes != scatterPositions
    requires randoms != positions && randoms != treePositions && randoms != scatterPositions
    modifies positions, treePositions, scatterPositions, sizes, randoms
    ensures Slot(treePositions, i) == TreeAnchor(d)
    ensures Slot(scatterPositions, i) == ScatterAnchor(d) && Slot(positions, i) == ScatterAnchor(d)
    ensures sizes[i] == PointSize(d) && randoms[i] == d.rnd
    ensures forall k: nat :: k != i && 3 * k + 2 < positions.Length ==>
      && Slot(treePositions, k) == old(Slot(treePositions, k))
      && Slot(scatterPositions, k) == old(Slot(scatterPositions, k))
      && Slot(positions, k) == old(Slot(positions, k))
    ensures forall k :: 0 <= k < sizes.Length && k != i ==> sizes[k] == old(sizes[k]) && randoms[k] == old(randoms[k])
  {
    var tree := TreePoint(d);
    treePositions[i * 3], treePositions[i * 3 + 1], treePositions[i * 3 + 2] := tree.x, tree.y, tree.z;
    var scatter := ScatterPoint(d);
    scatterPositions[i * 3], scatterPositions[i * 3 + 1], scatterPositions[i * 3 + 2] := scatter.x, scatter.y, scatter.z;
    positions[i * 3], positions[i * 3 + 1], positions[i * 3 + 2] :=
      scatterPositions[i * 3], scatterPositions[i * 3 + 1], scatterPositions[i * 3 + 2];
    sizes[i] := d.size * 1.5 + 0.5;
    randoms[i] := d.rnd;
  }

  /**
   * The generation loop in the attribute memo: slot i of the tree and
   * scatter buffers holds the anchors of draw i, the initial positions
   * copy the scatter anchors, and sizes and randoms are stored one per point.
   */
  method Generate(draws: seq<FoliageDraw>)
    returns (positions: array<real>, treePositions: array<real>, scatterPositions: array<real>,
             sizes: array<real>, randoms: array<real>)
    ensures fresh(positions) && fresh(treePositions) && fresh(scatterPositions) && fresh(sizes) && fresh(randoms)
    ensures positions.Length == 3 * |draws| && treePositions.Length == 3 * |draws|
    ensures scatterPositions.Length == 3 * |draws|
    ensures sizes.Length == |draws| && randoms.Length == |draws|
    ensures forall i :: 0 <= i < |draws| ==>
      && Slot(treePositions, i) == TreeAnchor(draws[i])
      && Slot(scatterPositions, i) == ScatterAnchor(draws[i])
      && Slot(positions, i) == ScatterAnchor(draws[i])
      && sizes[i] == PointSize(draws[i]) && randoms[i] == draws[i].rnd
  {
    var n := |draws|;
    positions := new real[3 * n];
    treePositions := new real[3 * n];
    scatterPositions := new real[3 * n];
    sizes := new real[n];
    randoms := new real[n];
    for i := 0 to n
      invariant forall k :: 0 <= k < i ==> Slot(treePositions, k) == TreeAnchor(draws[k])
      invariant forall k :: 0 <= k < i ==> Slot(scatterPositions, k) == ScatterAnchor(draws[k])
      invariant forall k :: 0 <= k < i ==> Slot(positions, k) == ScatterAnchor(draws[k])
      invariant forall k :: 0 <= k < i ==> sizes[k] == PointSize(draws[k])
      invariant forall k :: 0 <= k < i ==> randoms[k] == draws[k].rnd
    {
      WritePoint(positions, treePositions, scatterPositions, sizes, randoms, i, draws[i]);
    }
  }

  // ---------------------------------------------------------------------
  // The vertex shader
  // ---------------------------------------------------------------------

  /** What the vertex shader computes for one point besides its projection. */
  datatype Vertex = Vertex(position: Vec3, alpha: real)

  /** The three sines the shader evaluates for a point: breathe, drift and wind phase. */
  datatype Phases = Phases(breathe: real, drift: real, wind: real)

  ghost predicate ValidPhases(p: Phases)
  {
    -1.0 <= p.breathe <= 1.0 && -1.0 <= p.drift <= 1.0 && -1.0 <= p.wind <= 1.0
  }

  /** The horizontal shear `uWind * (aTreePos.y + 6) * 0.1 * sin(...)`. */
  function WindEffect(uWind: real, treeY: real, s: real): real
  {
    uWind * (treeY + 6.0) * 0.1 * s
  }

  /**
   * The vertex formula: the blend of the anchors, a drift along (1, 1, 1)
   * that fades as the tree forms, a breath along the normal, and the wind
   * shear on x (full) and z (half).
   */
  function VertexAt(tree: Vec3, scatter: Vec3, normal: Vec3, morph: real, uWind: real, ph: Phases): Vertex
  {
    var target := LerpVec(scatter, tree, morph);
    var breathe := ph.breathe * 0.1;
    var drift := ph.drift * (1.0 - morph) * 2.0;
    var windEffect := WindEffect(uWind, tree.y, ph.wind);
    var p := Add(Add(target, Vec3(drift, drift, drift)), Vec3(normal.x * breathe, normal.y * breathe, normal.z * breathe));
    Vertex(Vec3(p.x + windEffect, p.y, p.z + windEffect * 0.5), 0.7 + 0.3 * morph)
  }

  /**
   * The opacity grows from 0.7 (scattered) to 1 (formed); once the tree has
   * formed the drift term is gone and the point sits at its tree anchor up
   * to breath and wind.
   */
  lemma VertexFormed(tree: Vec3, scatter: Vec3, normal: Vec3, morph: real, uWind: real, ph: Phases)
    ensures 0.0 <= morph <= 1.0 ==> 0.7 <= VertexAt(tree, scatter, normal, morph, uWind, ph).alpha <= 1.0
    ensures morph == 1.0 ==>
      var b := ph.breathe * 0.1;
      var w := WindEffect(uWind, tree.y, ph.wind);
      && VertexAt(tree, scatter, normal, morph, uWind, ph).alpha == 1.0
      && VertexAt(tree, scatter, normal, morph, uWind, ph).position
         == Vec3(tree.x + normal.x * b + w, tree.y + normal.y * b, tree.z + normal.z * b + w * 0.5)
  {
  }

  /** With the wind within the spin bound and the point on the tree, the shear is at most 6 units. */
  lemma WindEffectBounded(uWind: real, treeY: real, s: real)
    requires Abs(uWind) <= Scene.MAX_SPIN
    requires -6.0 <= treeY < 6.0
    requires -1.0 <= s <= 1.0
    ensures Abs(WindEffect(uWind, treeY, s)) <= 6.0
  {
    var a := uWind * (treeY + 6.0);
    AbsMulBound(uWind, Scene.MAX_SPIN, treeY + 6.0);
    assert Abs(a * 0.1) <= 6.0;
    AbsMul(a * 0.1, s);
    MulBounds(Abs(a * 0.1), Abs(s), 0.0, 6.0, 0.0, 1.0);
  }

  // ---------------------------------------------------------------------
  // The wind uniform
  // ---------------------------------------------------------------------

  /** `uWind` follows the angular velocity with factor 0.1 each frame. */
  function WindStep(uWind: real, spin: real): real
  {
    Lerp(uWind, spin, 0.1)
  }

  /** The wind after following a sequence of angular velocities, one per frame. */
  function WindAfter(uWind: real, spins: seq<real>): real
  {
    if spins == [] then uWind else WindStep(WindAfter(uWind, spins[..|spins| - 1]), spins[|spins| - 1])
  }

  /** One step keeps the wind within the spin bound and closes 10% of the gap. */
  lemma WindStepBounded(uWind: real, spin: real)
    requires Abs(uWind) <= Scene.MAX_SPIN && Abs(spin) <= Scene.MAX_SPIN
    ensures Abs(WindStep(uWind, spin)) <= Scene.MAX_SPIN
    ensures Abs(WindStep(uWind, spin) - spin) == 0.9 * Abs(uWind - spin)
  {
    LerpInInterval(uWind, spin, 0.1, -Scene.MAX_SPIN, Scene.MAX_SPIN);
    LerpGap(uWind, spin, 0.1);
  }

  /**
   * Fed by angular velocities that keep the scene's spin invariant, the wind
   * never leaves [-5, 5] when it starts there (it starts at 0).
   */
  lemma {:induction false} WindStaysBounded(uWind: real, spins: seq<real>)
    requires Abs(uWind) <= Scene.MAX_SPIN
    requires forall k :: 0 <= k < |spins| ==> Scene.SpinInvariant(spins[k])
    ensures Abs(WindAfter(uWind, spins)) <= Scene.MAX_SPIN
  {
    if spins != [] {
      WindStaysBounded(uWind, spins[..|spins| - 1]);
      WindStepBounded(WindAfter(uWind, spins[..|spins| - 1]), spins[|spins| - 1]);
    }
  }

  /**
   * The layer: its attribute buffers and the uniforms the frame callback
   * writes (`uTime`, `uMorph`, `uPixelRatio`, `uWind`; all 0 or 1 at first).
   */
  class FoliageLayer {
    const positions: array<real>
    const treePositions: array<real>
    const scatterPositions: array<real>
    const sizes: array<real>
    const randoms: array<real>
    var uTime: real
    var uMorph: real
    var uPixelRatio: real
    var uWind: real

    constructor (draws: seq<FoliageDraw>)
      requires |draws| == FOLIAGE_COUNT
      ensures positions.Length == 3 * |draws| && treePositions.Length == 3 * |draws|
      ensures scatterPositions.Length == 3 * |draws| && sizes.Length == |draws| && randoms.Length == |draws|
      ensures forall i :: 0 <= i < |draws| ==>
        && Slot(treePositions, i) == TreeAnchor(draws[i])
        && Slot(scatterPositions, i) == ScatterAnchor(draws[i])
        && Slot(positions, i) == ScatterAnchor(draws[i])
        && sizes[i] == PointSize(draws[i]) && randoms[i] == draws[i].rnd
      ensures uTime == 0.0 && uMorph == 0.0 && uPixelRatio == 1.0 && uWind == 0.0
    {
      var p, t, s, sz, rnd := Generate(draws);
      positions, treePositions, scatterPositions, sizes, randoms := p, t, s, sz, rnd;
      uTime, uMorph, uPixelRatio, uWind := 0.0, 0.0, 1.0, 0.0;
    }

    /** The frame callback: copy time and morph, cap the pixel ratio at 2, smooth the wind. */
    method Frame(time: real, morph: real, devicePixelRatio: real, spin: real)
      modifies this
      ensures uTime == time && uMorph == morph
      ensures uPixelRatio == Min(devicePixelRatio, 2.0)
      ensures uWind == WindStep(old(uWind), spin)
      ensures Abs(old(uWind)) <= Scene.MAX_SPIN && Scene.SpinInvariant(spin) ==> Abs(uWind) <= Scene.MAX_SPIN
    {
      uTime := time;
      uMorph := morph;
      uPixelRatio := Min(devicePixelRatio, 2.0);
      uWind := Lerp(uWind, spin, 0.1);
      if Abs(old(uWind)) <= Scene.MAX_SPIN && Scene.SpinInvariant(spin) {
        WindStepBounded(old(uWind), spin);
      }
    }
  }
}
