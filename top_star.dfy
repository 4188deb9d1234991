/**
 * The star on top of the tree: its two anchors, the ten-vertex outline of
 * the five-pointed star that the extrusion is built from, and the frame
 * update that blends the position, spins and wobbles the star and pulses
 * its scale.  `Math.sin` and `Math.cos` are passed in; the three scatter
 * draws are the values of `Math.random()`.
 */
module TopStar {
  import opened Numerics
  import opened Geometry
  import opened Types

  const POINTS: nat := 5
  const OUTER_RADIUS: real := 0.8
  const INNER_RADIUS: real := 0.4
  /** `Math.PI / points`: the angle between consecutive outline vertices. */
  const ANGLE_STEP: real := PI / 5.0

  /** The tree anchor, just above the tip of the cone. */
  function TreeAnchor(): (p: Vec3)
    ensures p == Vec3(0.0, 6.8, 0.0)
    ensures p.y == TREE_HEIGHT / 2.0 + 0.8
  {
    Vec3(0.0, TREE_HEIGHT / 2.0 + 0.8, 0.0)
  }

  /** The scatter anchor: a cube of side SCATTER_RADIUS around (0, 10, 0). */
  function ScatterAnchor(d1: real, d2: real, d3: real): Vec3
  {
    Vec3((d1 - 0.5) * SCATTER_RADIUS, (d2 - 0.5) * SCATTER_RADIUS + 10.0, (d3 - 0.5) * SCATTER_RADIUS)
  }

  /** With draws in [0, 1), x and z lie in [-7.5, 7.5) and y in [2.5, 17.5). */
  lemma ScatterAnchorRanges(d1: real, d2: real, d3: real)
    requires 0.0 <= d1 < 1.0 && 0.0 <= d2 < 1.0 && 0.0 <= d3 < 1.0
    ensures -7.5 <= ScatterAnchor(d1, d2, d3).x < 7.5
    ensures 2.5 <= ScatterAnchor(d1, d2, d3).y < 17.5
    ensures -7.5 <= ScatterAnchor(d1, d2, d3).z < 7.5
  {
  }

  /** Even vertices are the five tips, odd ones the five notches between them. */
  function RadiusAt(i: nat): (r: real)
    ensures r == OUTER_RADIUS <==> i % 2 == 0
    ensures r == INNER_RADIUS <==> i % 2 == 1
  {
    if i % 2 == 0 then OUTER_RADIUS else INNER_RADIUS
  }

  /** Vertex i of the outline: `(sin(a) r, cos(a) r)` with `a = i PI / 5`, so angle 0 is straight up. */
  function OutlineVertex(i: nat, sin: real -> real, cos: real -> real): Vec2
  {
    var a := i as real * ANGLE_STEP;
    Vec2(sin(a) * RadiusAt(i), cos(a) * RadiusAt(i))
  }

  /**
   * The outline loop: `moveTo(0, outerRadius)` and then one `lineTo` for
   * each i in 1 .. 2 * points - 1; `closePath` joins the last vertex back
   * to the first.
   */
  method Outline(sin: real -> real, cos: real -> real) returns (path: seq<Vec2>)
    ensures |path| == 2 * POINTS
    ensures path[0] == Vec2(0.0, OUTER_RADIUS)
    ensures forall i :: 1 <= i < |path| ==> path[i] == OutlineVertex(i, sin, cos)
  {
    path := [Vec2(0.0, OUTER_RADIUS)];
    var i := 1;
    while i < 2 * POINTS
      invariant 1 <= i <= 2 * POINTS
      invariant |path| == i
      invariant path[0] == Vec2(0.0, OUTER_RADIUS)
      invariant forall k :: 1 <= k < i ==> path[k] == OutlineVertex(k, sin, cos)
    {
      var r := if i % 2 == 0 then OUTER_RADIUS else INNER_RADIUS;
      var a := i as real * ANGLE_STEP;
      assert Vec2(sin(a) * r, cos(a) * r) == OutlineVertex(i, sin, cos);
      path := path + [Vec2(sin(a) * r, cos(a) * r)];
      i := i + 1;
    }
  }

  /** With sin 0 = 0 and cos 0 = 1 the starting point is vertex 0 of the same formula. */
  lemma StartIsVertexZero(sin: real -> real, cos: real -> real)
    requires sin(0.0) == 0.0 && cos(0.0) == 1.0
    ensures OutlineVertex(0, sin, cos) == Vec2(0.0, OUTER_RADIUS)
  {
  }

  /**
   * Where (sin a, cos a) lies on the unit circle, vertex i is at distance
   * RadiusAt(i) from the centre: 0.8 for the tips, 0.4 for the notches.
   */
  lemma VertexRadius(i: nat, sin: real -> real, cos: real -> real)
    requires sin(i as real * ANGLE_STEP) * sin(i as real * ANGLE_STEP)
           + cos(i as real * ANGLE_STEP) * cos(i as real * ANGLE_STEP) == 1.0
    ensures var v := OutlineVertex(i, sin, cos); v.x * v.x + v.y * v.y == RadiusAt(i) * RadiusAt(i)
  {
    var a := i as real * ANGLE_STEP;
    var r := RadiusAt(i);
    calc {
      (sin(a) * r) * (sin(a) * r) + (cos(a) * r) * (cos(a) * r);
      (sin(a) * sin(a) + cos(a) * cos(a)) * (r * r);
      r * r;
    }
  }

  /** The scale pulse `(1 + 0.15 sin(3t)) (0.6 + 0.4 morph)`, given the sine. */
  function PulseScale(s: real, morph: real): real
  {
    (1.0 + s * 0.15) * (0.6 + 0.4 * morph)
  }

  /**
   * For a sine in [-1, 1] and morph in [0, 1] the scale stays in
   * [0.51, 1.15]; fully formed it is the bare pulse, fully scattered 60% of it.
   */
  lemma PulseScaleRange(s: real, morph: real)
    requires -1.0 <= s <= 1.0 && 0.0 <= morph <= 1.0
    ensures 0.51 <= PulseScale(s, morph) <= 1.15
    ensures morph == 1.0 ==> PulseScale(s, morph) == 1.0 + s * 0.15
    ensures morph == 0.0 ==> PulseScale(s, morph) == 0.6 * (1.0 + s * 0.15)
  {
    MulBounds(1.0 + s * 0.15, 0.6 + 0.4 * morph, 0.85, 1.15, 0.6, 1.0);
  }

  /**
   * The star mesh: its two anchors and the transform the frame callback
   * writes.  A fresh mesh sits at the origin, unrotated, at scale 1.
   */
  class Star {
    const treePos: Vec3
    const scatterPos: Vec3
    var position: Vec3
    var rotationY: real
    var rotationZ: real
    var scale: real

    constructor (d1: real, d2: real, d3: real)
      ensures treePos == TreeAnchor() && scatterPos == ScatterAnchor(d1, d2, d3)
      ensures position == Vec3(0.0, 0.0, 0.0) && rotationY == 0.0 && rotationZ == 0.0 && scale == 1.0
    {
      treePos := TreeAnchor();
      scatterPos := ScatterAnchor(d1, d2, d3);
      position := Vec3(0.0, 0.0, 0.0);
      rotationY, rotationZ, scale := 0.0, 0.0, 1.0;
    }

    /**
     * The frame callback at elapsed time `time`: blend the anchors by
     * morph, spin at one radian per second, wobble and pulse.
     */
    method Frame(time: real, morph: real, sin: real -> real)
      modifies this
      ensures position == LerpVec(scatterPos, treePos, morph)
      ensures morph == 0.0 ==> position == scatterPos
      ensures morph == 1.0 ==> position == treePos
      ensures rotationY == time
      ensures rotationZ == sin(time * 0.5) * 0.1
      ensures -1.0 <= sin(time * 0.5) <= 1.0 ==> -0.1 <= rotationZ <= 0.1
      ensures scale == PulseScale(sin(time * 3.0), morph)
      ensures -1.0 <= sin(time * 3.0) <= 1.0 && 0.0 <= morph <= 1.0 ==> 0.51 <= scale <= 1.15
    {
      position := LerpVec(scatterPos, treePos, morph);
      rotationY := time * 1.0;
      rotationZ := sin(time * 0.5) * 0.1;
      var pulse := 1.0 + sin(time * 3.0) * 0.15;
      scale := pulse * (0.6 + 0.4 * morph);
      if -1.0 <= sin(time * 3.0) <= 1.0 && 0.0 <= morph <= 1.0 {
        PulseScaleRange(sin(time * 3.0), morph);
      }
    }
  }
}
