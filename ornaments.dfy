/**
 * The instanced ornaments (cubes and spheres): anchors drawn once on the cone
 * and on a spherical shell, the initial layout at the scatter anchors, and
 * the per-frame loop that writes every instance through one reused transform.
 * An instance matrix is represented by the transform it is composed from.
 */
module Ornaments {
  import opened Numerics
  import opened Geometry
  import opened Types

  /** The uniform draws of one ornament, in the loop's order; the angles come as unit pairs. */
  datatype OrnamentDraw = OrnamentDraw(
    h: real, r: real, theta: Angle,
    sr: real, u: real, phi: Angle, lam: Angle,
    rotX: real, rotY: real, rnd: real)

  ghost predicate ValidDraw(d: OrnamentDraw)
  {
    && 0.0 <= d.h < 1.0 && 0.0 <= d.r < 1.0 && OnUnitCircle(d.theta)
    && 0.0 <= d.sr < 1.0 && IsSphereLatitude(d.u, d.phi) && OnUnitCircle(d.lam)
    && 0.0 <= d.rotX < 1.0 && 0.0 <= d.rotY < 1.0 && 0.0 <= d.rnd < 1.0
  }

  /** Position, Euler rotation and uniform scale of one instance. */
  datatype Transform = Transform(position: Vec3, rotation: Vec3, scale: real)

  /** A fresh `Object3D`: at the origin, unrotated, unit scale. */
  const IDENTITY: Transform := Transform(Vec3(0.0, 0.0, 0.0), Vec3(0.0, 0.0, 0.0), 1.0)

  function AnchorHeight(d: OrnamentDraw): real
  {
    (d.h - 0.5) * (TREE_HEIGHT - 1.0)
  }

  function AnchorRadius(d: OrnamentDraw): real
  {
    (d.r * 0.5 + 0.8) * TREE_RADIUS * RadiusRatio(AnchorHeight(d))
  }

  function TreeAnchor(d: OrnamentDraw): Vec3
  {
    Cylindrical(AnchorRadius(d), AnchorHeight(d), d.theta)
  }

  function ScatterRadius(d: OrnamentDraw): real
  {
    SCATTER_RADIUS * (0.8 + d.sr * 0.5)
  }

  function ScatterAnchor(d: OrnamentDraw): Vec3
  {
    SpherePoint(ScatterRadius(d), d.phi, d.lam)
  }

  /** The base Euler rotation `(rx PI, ry PI, 0)`. */
  function BaseRotation(d: OrnamentDraw): Vec3
  {
    Vec3(d.rotX * PI, d.rotY * PI, 0.0)
  }

  /**
   * The tree anchor lies at a height in [-5.5, 5.5) at a distance from the
   * axis in [0.8, 1.3) times `TREE_RADIUS * rRatio`, with rRatio in (1/24, 23/24];
   * the scatter anchor lies on the shell of radius sr in [12, 19.5).
   */
  lemma AnchorRanges(d: OrnamentDraw)
    requires ValidDraw(d)
    ensures -5.5 <= AnchorHeight(d) < 5.5 && TreeAnchor(d).y == AnchorHeight(d)
    ensures 1.0 / 24.0 < RadiusRatio(AnchorHeight(d)) <= 23.0 / 24.0
    ensures var base := TREE_RADIUS * RadiusRatio(AnchorHeight(d));
      0.8 * base <= AnchorRadius(d) < 1.3 * base
    ensures HorizontalNormSq(TreeAnchor(d)) == AnchorRadius(d) * AnchorRadius(d)
    ensures 12.0 <= ScatterRadius(d) < 19.5
    ensures NormSq(ScatterAnchor(d)) == ScatterRadius(d) * ScatterRadius(d)
  {
    TreeAnchorRanges(d);
    SpherePointRadius(ScatterRadius(d), d.phi, d.lam);
  }

  /** The tree half of AnchorRanges: the height, the cone's radius ratio there and the anchor's radius. */
  lemma TreeAnchorRanges(d: OrnamentDraw)
    requires ValidDraw(d)
    ensures -5.5 <= AnchorHeight(d) < 5.5 && TreeAnchor(d).y == AnchorHeight(d)
    ensures 1.0 / 24.0 < RadiusRatio(AnchorHeight(d)) <= 23.0 / 24.0
    ensures var base := TREE_RADIUS * RadiusRatio(AnchorHeight(d));
      0.8 * base <= AnchorRadius(d) < 1.3 * base
    ensures HorizontalNormSq(TreeAnchor(d)) == AnchorRadius(d) * AnchorRadius(d)
  {
    var rr := RadiusRatio(AnchorHeight(d));
    assert rr == 0.5 - AnchorHeight(d) / 12.0;
    RadiusFactorBound(d.r, rr);
    CylindricalRadius(AnchorRadius(d), AnchorHeight(d), d.theta);
  }

  /** The radius factor `r * 0.5 + 0.8`, in [0.8, 1.3), applied to a cone of positive radius ratio. */
  lemma RadiusFactorBound(r: real, rr: real)
    requires 0.0 <= r < 1.0 && rr > 0.0
    ensures 0.8 * (TREE_RADIUS * rr) <= (r * 0.5 + 0.8) * TREE_RADIUS * rr < 1.3 * (TREE_RADIUS * rr)
  {
    MulAssoc(r * 0.5 + 0.8, TREE_RADIUS, rr);
    ScaledWithin(r * 0.5 + 0.8, TREE_RADIUS * rr, 0.8, 1.3);
  }

  /**
   * The anchor generation loop: one tree anchor, scatter anchor, base
   * rotation and random per draw, pushed in order.
   */
  method GenerateAnchors(draws: seq<OrnamentDraw>)
    returns (treePos: seq<Vec3>, scatterPos: seq<Vec3>, rotations: seq<Vec3>, randoms: seq<real>)
    ensures |treePos| == |draws| && |scatterPos| == |draws| && |rotations| == |draws| && |randoms| == |draws|
    ensures forall i :: 0 <= i < |draws| ==>
      && treePos[i] == TreeAnchor(draws[i]) && scatterPos[i] == ScatterAnchor(draws[i])
      && rotations[i] == BaseRotation(draws[i]) && randoms[i] == draws[i].rnd
  {
    treePos, scatterPos, rotations, randoms := [], [], [], [];
    var i := 0;
    while i < |draws|
      invariant 0 <= i <= |draws|
      invariant |treePos| == i && |scatterPos| == i && |rotations| == i && |randoms| == i
      invariant forall k :: 0 <= k < i ==>
        && treePos[k] == TreeAnchor(draws[k]) && scatterPos[k] == ScatterAnchor(draws[k])
        && rotations[k] == BaseRotation(draws[k]) && randoms[k] == draws[k].rnd
    {
      var d := draws[i];
      var h := (d.h - 0.5) * (TREE_HEIGHT - 1.0);
      var rRatio := 1.0 - ((h + TREE_HEIGHT / 2.0) / TREE_HEIGHT);
      var r := (d.r * 0.5 + 0.8) * TREE_RADIUS * rRatio;
      treePos := treePos + [Vec3(r * d.theta.cos, h, r * d.theta.sin)];
      var sr := SCATTER_RADIUS * (0.8 + d.sr * 0.5);
      scatterPos := scatterPos + [Vec3(sr * d.phi.cos * d.lam.cos, sr * d.phi.cos * d.lam.sin, sr * d.phi.sin)];
      rotations := rotations + [Vec3(d.rotX * PI, d.rotY * PI, 0.0)];
      randoms := randoms + [d.rnd];
      i := i + 1;
    }
  }

  // ---------------------------------------------------------------------
  // One instance in one frame
  // ---------------------------------------------------------------------

  /** The vertical bob `sin(time * 1.5 + r * 10) * 0.2`, given the sine. */
  function FloatY(s: real): real
  {
    s * 0.2
  }

  /** The instance position: the blend of the anchors plus the bob. */
  function InstancePosition(sP: Vec3, tP: Vec3, morph: real, s: real): Vec3
  {
    var p := LerpVec(sP, tP, morph);
    p.(y := p.y + FloatY(s))
  }

  /** The instance rotation: the x and z spins fade out as the tree forms, the y spin does not. */
  function InstanceRotation(base: Vec3, morph: real, time: real): Vec3
  {
    Vec3(base.x + time * 0.5 * (1.0 - morph), base.y + time * 0.3, base.z + time * 0.2 * (1.0 - morph))
  }

  /** The instance scale: a pulse around `scaleBase`, reduced to half when scattered. */
  function InstanceScale(scaleBase: real, pulse: real, morph: real): real
  {
    var scale := scaleBase + pulse * (scaleBase * 0.2);
    scale * (0.5 + 0.5 * morph)
  }

  /**
   * The transform of instance i in a frame: `sin` is the sine the frame
   * evaluates, applied to `time * 1.5 + r * 10` and `time * 3 + r * 100`.
   */
  function InstanceAt(tP: Vec3, sP: Vec3, base: Vec3, r: real,
                      morph: real, time: real, scaleBase: real, sin: real -> real): Transform
  {
    Transform(
      InstancePosition(sP, tP, morph, sin(time * 1.5 + r * 10.0)),
      InstanceRotation(base, morph, time),
      InstanceScale(scaleBase, sin(time * 3.0 + r * 100.0), morph))
  }

  /**
   * The body of the frame loop for one instance: blend, bob, spin and pulse
   * the reused dummy.
   */
  method PlaceInstance(tP: Vec3, sP: Vec3, base: Vec3, r: real,
                       morph: real, time: real, scaleBase: real, sin: real -> real) returns (t: Transform)
    ensures t == InstanceAt(tP, sP, base, r, morph, time, scaleBase, sin)
  {
    var position := LerpVec(sP, tP, morph);
    var floatY := sin(time * 1.5 + r * 10.0) * 0.2;
    position := position.(y := position.y + floatY);
    var rotation := Vec3(
      base.x + time * 0.5 * (1.0 - morph),
      base.y + time * 0.3,
      base.z + time * 0.2 * (1.0 - morph));
    var scale := scaleBase + sin(time * 3.0 + r * 100.0) * (scaleBase * 0.2);
    t := Transform(position, rotation, scale * (0.5 + 0.5 * morph));
  }

  /** The bob moves an ornament by at most 0.2, and only vertically. */
  lemma FloatBounded(sP: Vec3, tP: Vec3, morph: real, s: real)
    requires -1.0 <= s <= 1.0
    ensures Abs(FloatY(s)) <= 0.2
    ensures var p := InstancePosition(sP, tP, morph, s);
      && p.x == LerpVec(sP, tP, morph).x && p.z == LerpVec(sP, tP, morph).z
      && Abs(p.y - LerpVec(sP, tP, morph).y) <= 0.2
    ensures morph == 0.0 ==> InstancePosition(sP, tP, morph, s) == sP.(y := sP.y + FloatY(s))
    ensures morph == 1.0 ==> InstancePosition(sP, tP, morph, s) == tP.(y := tP.y + FloatY(s))
  {
  }

  /** For a positive base scale and a morph in [0, 1] the instance scale stays in [0.4, 1.2] times the base. */
  lemma ScaleRange(scaleBase: real, pulse: real, morph: real)
    requires scaleBase > 0.0
    requires -1.0 <= pulse <= 1.0
    requires 0.0 <= morph <= 1.0
    ensures 0.4 * scaleBase <= InstanceScale(scaleBase, pulse, morph) <= 1.2 * scaleBase
    ensures morph == 1.0 ==> 0.8 * scaleBase <= InstanceScale(scaleBase, pulse, morph)
  {
    var scale := scaleBase + pulse * (scaleBase * 0.2);
    AbsMulBound(pulse, 1.0, scaleBase * 0.2);
    assert 0.8 * scaleBase <= scale <= 1.2 * scaleBase;
    MulBounds(scale, 0.5 + 0.5 * morph, 0.8 * scaleBase, 1.2 * scaleBase, 0.5, 1.0);
  }

  /** Once the tree has formed only the spin about the vertical axis still advances with time. */
  lemma SpinSettlesWhenFormed(base: Vec3, time: real)
    ensures InstanceRotation(base, 1.0, time) == Vec3(base.x, base.y + time * 0.3, base.z)
    ensures InstanceRotation(base, 0.0, time) == Vec3(base.x + time * 0.5, base.y + time * 0.3, base.z + time * 0.2)
  {
  }

  // ---------------------------------------------------------------------
  // The layer
  // ---------------------------------------------------------------------

  /**
   * One `OrnamentsLayer`: the anchors of the memo, the instance buffer and
   * the reused `dummy` transform.  Rendering starts with every instance at
   * the identity and the dummy fresh.
   */
  class OrnamentsLayer {
    const count: nat
    const scaleBase: real
    const treePos: seq<Vec3>
    const scatterPos: seq<Vec3>
    const rotations: seq<Vec3>
    const randoms: seq<real>
    const instances: array<Transform>
    var dummy: Transform

    ghost predicate Valid()
      reads this
    {
      && |treePos| == count && |scatterPos| == count && |rotations| == count && |randoms| == count
      && instances.Length == count
    }

    constructor (draws: seq<OrnamentDraw>, scaleBase: real)
      ensures Valid() && fresh(instances)
      ensures count == |draws| && this.scaleBase == scaleBase
      ensures forall i :: 0 <= i < count ==>
        && treePos[i] == TreeAnchor(draws[i]) && scatterPos[i] == ScatterAnchor(draws[i])
        && rotations[i] == BaseRotation(draws[i]) && randoms[i] == draws[i].rnd
      ensures forall i :: 0 <= i < count ==> instances[i] == IDENTITY
      ensures dummy == IDENTITY
    {
      var t, s, r, rnd := GenerateAnchors(draws);
      count := |draws|;
      this.scaleBase := scaleBase;
      treePos, scatterPos, rotations, randoms := t, s, r, rnd;
      instances := new Transform[|draws|](_ => IDENTITY);
      dummy := IDENTITY;
    }

    /**
     * The layout effect: each instance gets the dummy moved to its scatter
     * anchor, so it keeps the dummy's rotation and scale.
     */
    method InitialLayout()
      requires Valid()
      modifies this, instances
      ensures Valid()
      ensures forall i :: 0 <= i < count ==> instances[i] == old(dummy).(position := scatterPos[i])
      ensures dummy == if count == 0 then old(dummy) else old(dummy).(position := scatterPos[count - 1])
    {
      var i := 0;
      while i < count
        invariant 0 <= i <= count
        invariant dummy.rotation == old(dummy).rotation && dummy.scale == old(dummy).scale
        invariant dummy == if i == 0 then old(dummy) else old(dummy).(position := scatterPos[i - 1])
        invariant forall k :: 0 <= k < i ==> instances[k] == old(dummy).(position := scatterPos[k])
      {
        dummy := dummy.(position := scatterPos[i]);
        instances[i] := dummy;
        i := i + 1;
      }
    }

    /** The frame loop: every slot is written once with its instance transform. */
    method Frame(morph: real, time: real, sin: real -> real)
      requires Valid()
      modifies this, instances
      ensures Valid()
      ensures forall i :: 0 <= i < count ==>
        instances[i] == InstanceAt(treePos[i], scatterPos[i], rotations[i], randoms[i], morph, time, scaleBase, sin)
      ensures count == 0 ==> dummy == old(dummy)
      ensures count > 0 ==>
        dummy == InstanceAt(treePos[count - 1], scatterPos[count - 1], rotations[count - 1], randoms[count - 1],
                            morph, time, scaleBase, sin)
    {
      var i := 0;
      while i < count
        invariant 0 <= i <= count
        invariant forall k :: 0 <= k < i ==>
          instances[k] == InstanceAt(treePos[k], scatterPos[k], rotations[k], randoms[k], morph, time, scaleBase, sin)
        invariant i == 0 ==> dummy == old(dummy)
        invariant i > 0 ==>
          dummy == InstanceAt(treePos[i - 1], scatterPos[i - 1], rotations[i - 1], randoms[i - 1],
                              morph, time, scaleBase, sin)
      {
        dummy := PlaceInstance(treePos[i], scatterPos[i], rotations[i], randoms[i], morph, time, scaleBase, sin);
        instances[i] := dummy;
        i := i + 1;
      }
    }
  }
}
