/**
 * The photo layer: the focus toggle, the two anchors of every photo (on the
 * tree and in the gallery), the choice of position and scale target in each
 * frame and the rates at which a photo follows them.  The orientation of a
 * photo (quaternions, `lookAt`, `slerp`) and the camera-relative placement of
 * the focused photo are outside the model; the focused placement is given.
 */
module Polaroid {
  import opened Numerics
  import opened Geometry
  import opened Types

  // ---------------------------------------------------------------------
  // Focus
  // ---------------------------------------------------------------------

  /** The nullable `focusedIndex`: no photo, or the photo at one position. */
  datatype Focus = NoFocus | FocusOn(index: nat)

  /** `handleToggle`: clicking the focused photo clears the focus, clicking any other photo focuses it. */
  function Toggle(f: Focus, index: nat): (r: Focus)
    ensures f == FocusOn(index) ==> r == NoFocus
    ensures f != FocusOn(index) ==> r == FocusOn(index)
  {
    if f == FocusOn(index) then NoFocus else FocusOn(index)
  }

  /** The `isFocused` prop of the i-th item: `focusedIndex === i`. */
  predicate IsFocused(f: Focus, i: nat)
  {
    f == FocusOn(i)
  }

  /** The `isFocused` props of a layer of n photos. */
  function FocusFlags(f: Focus, n: nat): (flags: seq<bool>)
    ensures |flags| == n
    ensures forall i :: 0 <= i < n ==> (flags[i] <==> IsFocused(f, i))
  {
    seq(n, i requires 0 <= i < n => IsFocused(f, i))
  }

  function CountTrue(s: seq<bool>): nat
  {
    if s == [] then 0 else CountTrue(s[..|s| - 1]) + (if s[|s| - 1] then 1 else 0)
  }

  /**
   * At most one photo is focused: exactly one when the index is inside the
   * layer, none when there is no focus or the index points past the end.
   */
  lemma {:induction false} AtMostOneFocused(f: Focus, n: nat)
    ensures CountTrue(FocusFlags(f, n)) == if f.FocusOn? && f.index < n then 1 else 0
  {
    if n > 0 {
      AtMostOneFocused(f, n - 1);
      assert FocusFlags(f, n)[..n - 1] == FocusFlags(f, n - 1);
    }
  }

  /** Clicking a photo twice from no focus returns to no focus. */
  lemma ToggleTwiceUnfocuses(i: nat)
    ensures Toggle(NoFocus, i) == FocusOn(i)
    ensures Toggle(Toggle(NoFocus, i), i) == NoFocus
  {
  }

  /** Clicking another photo moves the focus in one step, leaving the old one unfocused. */
  lemma ToggleMovesFocus(i: nat, j: nat)
    requires i != j
    ensures Toggle(FocusOn(i), j) == FocusOn(j)
    ensures !IsFocused(Toggle(FocusOn(i), j), i)
  {
  }

  /** The focus after a sequence of clicks, first click first. */
  function ToggleAll(f: Focus, clicks: seq<nat>): Focus
  {
    if clicks == [] then f else Toggle(ToggleAll(f, clicks[..|clicks| - 1]), clicks[|clicks| - 1])
  }

  /** After any non-empty sequence of clicks, either nothing or the last-clicked photo is focused. */
  lemma ClicksFocusLastOrNothing(f: Focus, clicks: seq<nat>)
    requires clicks != []
    ensures ToggleAll(f, clicks) == NoFocus || ToggleAll(f, clicks) == FocusOn(clicks[|clicks| - 1])
  {
  }

  /** Clicking the same photo n times from no focus leaves it focused exactly when n is odd. */
  lemma {:induction false} RepeatedClicks(i: nat, n: nat)
    ensures ToggleAll(NoFocus, seq(n, _ => i)) == if n % 2 == 1 then FocusOn(i) else NoFocus
  {
    if n > 0 {
      RepeatedClicks(i, n - 1);
      assert seq(n, _ => i)[..n - 1] == seq(n - 1, _ => i);
    }
  }

  // ---------------------------------------------------------------------
  // Anchors
  // ---------------------------------------------------------------------

  /**
   * The draws one photo consumes.  `hashSin` is the sine inside the hash
   * `rand()` that places the photo's height; `theta` is the angle of the
   * second `rand()`; the others are `Math.random()` draws in [0, 1).  The
   * three draws of the gallery tilt feed the orientation and are not kept.
   */
  datatype AnchorDraws = AnchorDraws(
    hashSin: real, theta: Angle,
    gx: real, gy: real, gz: real,
    phase: real, speed: real, amp: real)

  ghost predicate ValidDraws(d: AnchorDraws)
  {
    && -1.0 <= d.hashSin <= 1.0
    && OnUnitCircle(d.theta)
    && 0.0 <= d.gx < 1.0 && 0.0 <= d.gy < 1.0 && 0.0 <= d.gz < 1.0
    && 0.0 <= d.phase < 1.0 && 0.0 <= d.speed < 1.0 && 0.0 <= d.amp < 1.0
  }

  /** The base positions of one photo and the parameters of its gallery float. */
  datatype Anchors = Anchors(treePos: Vec3, galleryPos: Vec3, phase: real, speed: real, amp: real)

  /** The hash `rand()`: the fractional part of `sin(...) * 10000`, given the sine. */
  function HashRandom(s: real): real
  {
    Fract(s * 10000.0)
  }

  function PhotoHeight(d: AnchorDraws): real
  {
    (HashRandom(d.hashSin) - 0.5) * (TREE_HEIGHT - 2.0)
  }

  function MakeAnchors(d: AnchorDraws): Anchors
  {
    var h := PhotoHeight(d);
    var r := (TREE_RADIUS + 1.2) * RadiusRatio(h);
    Anchors(
      Cylindrical(r, h, d.theta),
      Vec3((d.gx - 0.5) * 30.0, (d.gy - 0.5) * 16.0, 10.0 + d.gz * 15.0),
      d.phase * PI * 2.0,
      0.5 + d.speed * 0.5,
      0.5 + d.amp * 0.5)
  }

  /**
   * The tree anchor sits at a height in [-5, 5) on a cone of radius
   * `(TREE_RADIUS + 1.2) * rRatio` with rRatio in (1/12, 11/12]; the gallery
   * anchor fills the box [-15, 15) x [-8, 8) x [10, 25) in front of the tree;
   * the float speed and amplitude are in [0.5, 1).
   */
  lemma AnchorRanges(d: AnchorDraws)
    requires ValidDraws(d)
    ensures -5.0 <= PhotoHeight(d) < 5.0
    ensures 1.0 / 12.0 < RadiusRatio(PhotoHeight(d)) <= 11.0 / 12.0
    ensures var r := (TREE_RADIUS + 1.2) * RadiusRatio(PhotoHeight(d));
      HorizontalNormSq(MakeAnchors(d).treePos) == r * r && MakeAnchors(d).treePos.y == PhotoHeight(d)
    ensures -15.0 <= MakeAnchors(d).galleryPos.x < 15.0
    ensures -8.0 <= MakeAnchors(d).galleryPos.y < 8.0
    ensures 10.0 <= MakeAnchors(d).galleryPos.z < 25.0
    ensures 0.5 <= MakeAnchors(d).speed < 1.0 && 0.5 <= MakeAnchors(d).amp < 1.0
  {
    var h := PhotoHeight(d);
    CylindricalRadius((TREE_RADIUS + 1.2) * RadiusRatio(h), h, d.theta);
  }

  // ---------------------------------------------------------------------
  // Per-frame targets
  // ---------------------------------------------------------------------

  /** The three waves of the gallery float at the current time: `sin`, `cos`, `sin` values. */
  datatype Wave = Wave(sx: real, cy: real, sz: real)

  ghost predicate ValidWave(w: Wave)
  {
    -1.0 <= w.sx <= 1.0 && -1.0 <= w.cy <= 1.0 && -1.0 <= w.sz <= 1.0
  }

  function FloatOffset(a: Anchors, w: Wave): Vec3
  {
    Vec3(w.sx * a.amp, w.cy * a.amp, w.sz * a.amp * 0.5)
  }

  /** A product of a value in [-1, 1] and a non-negative amplitude is at most that amplitude in size. */
  lemma UnitScaled(v: real, w: real, d: real)
    requires v == w * d && -1.0 <= w <= 1.0 && d >= 0.0
    ensures Abs(v) <= d
  {
    AbsMulBound(w, 1.0, d);
  }

  /** The float moves a photo by at most its amplitude along x and y and half of it along z. */
  lemma FloatBounded(a: Anchors, w: Wave)
    requires ValidWave(w) && a.amp >= 0.0
    ensures Abs(FloatOffset(a, w).x) <= a.amp && Abs(FloatOffset(a, w).y) <= a.amp
    ensures Abs(FloatOffset(a, w).z) <= a.amp * 0.5
  {
    var o := FloatOffset(a, w);
    UnitScaled(o.x, w.sx, a.amp);
    UnitScaled(o.y, w.cy, a.amp);
    MulAssoc(w.sz, a.amp, 0.5);
    UnitScaled(o.z, w.sz, a.amp * 0.5);
  }

  /** `targetPos`: the focused placement, the floating (and hovered) gallery spot below morph 0.5, or the tree spot. */
  function TargetPosition(a: Anchors, focused: bool, focusPos: Vec3, morph: real, hovered: bool, w: Wave): Vec3
  {
    if focused then focusPos
    else if morph < 0.5 then
      var p := Add(a.galleryPos, FloatOffset(a, w));
      if hovered then p.(z := p.z + 2.0) else p
    else a.treePos
  }

  /** `currentTargetPos`: while morphing an unfocused photo follows the straight blend from gallery to tree. */
  function FrameTarget(a: Anchors, focused: bool, focusPos: Vec3, morph: real, hovered: bool, w: Wave): Vec3
  {
    if !focused && 0.0 < morph < 1.0 then LerpVec(a.galleryPos, a.treePos, morph)
    else TargetPosition(a, focused, focusPos, morph, hovered, w)
  }

  /** `targetScale`: large when focused, enlarged by a fifth when hovered in the gallery, the slider value otherwise. */
  function TargetScale(globalScale: real, focused: bool, morph: real, hovered: bool): real
  {
    if focused then (TREE_HEIGHT / 3.0) / 1.5
    else if morph < 0.5 && hovered then globalScale * 1.2
    else globalScale
  }

  /** The position follows its target by 0.2 per frame when focused and 0.05 otherwise. */
  function PositionRate(focused: bool): (t: real)
    ensures 0.0 < t < 1.0
    ensures focused ==> t == 0.2
    ensures !focused ==> t == 0.05
  {
    if focused then 0.2 else 0.05
  }

  const SCALE_RATE: real := 0.1

  /** The frame width for an image aspect: `(aspect + 0.2) / 1.2`. */
  function FrameScaleX(aspect: real): real
  {
    (aspect + 0.2) / 1.2
  }

  /**
   * The focused photo is drawn at scale 8/3; an unfocused one at the slider
   * value, or 1.2 times it while hovered in the gallery.  With the slider in
   * [0.5, 2.0] the target scale stays in [0.5, 8/3].
   */
  lemma TargetScaleCases(globalScale: real, focused: bool, morph: real, hovered: bool)
    ensures focused ==> TargetScale(globalScale, focused, morph, hovered) == 8.0 / 3.0
    ensures !focused && morph < 0.5 && hovered ==> TargetScale(globalScale, focused, morph, hovered) == 1.2 * globalScale
    ensures !focused && !(morph < 0.5 && hovered) ==> TargetScale(globalScale, focused, morph, hovered) == globalScale
    ensures 0.5 <= globalScale <= 2.0 ==> 0.5 <= TargetScale(globalScale, focused, morph, hovered) <= 8.0 / 3.0
  {
  }

  /**
   * While an unfocused photo is morphing, its target is exactly the blend of
   * its anchors: hover and float are discarded.  At the ends of the morph it
   * is the floating gallery spot (morph 0) or the tree spot (morph 1).
   */
  lemma FrameTargetSelection(a: Anchors, focusPos: Vec3, morph: real, h1: bool, h2: bool, w1: Wave, w2: Wave)
    ensures 0.0 < morph < 1.0 ==>
      FrameTarget(a, false, focusPos, morph, h1, w1) == FrameTarget(a, false, focusPos, morph, h2, w2)
        == LerpVec(a.galleryPos, a.treePos, morph)
    ensures FrameTarget(a, false, focusPos, 0.0, false, w1) == Add(a.galleryPos, FloatOffset(a, w1))
    ensures FrameTarget(a, false, focusPos, 1.0, h1, w1) == a.treePos
    ensures FrameTarget(a, true, focusPos, morph, h1, w1) == focusPos
  {
  }

  /** Each frame closes every coordinate's gap to the target by the position rate. */
  lemma PositionApproach(p: Vec3, target: Vec3, focused: bool)
    ensures var q := LerpVec(p, target, PositionRate(focused));
      && Abs(q.x - target.x) == (1.0 - PositionRate(focused)) * Abs(p.x - target.x)
      && Abs(q.y - target.y) == (1.0 - PositionRate(focused)) * Abs(p.y - target.y)
      && Abs(q.z - target.z) == (1.0 - PositionRate(focused)) * Abs(p.z - target.z)
  {
    var t := PositionRate(focused);
    LerpGap(p.x, target.x, t);
    LerpGap(p.y, target.y, t);
    LerpGap(p.z, target.z, t);
  }

  /** A square image gets the unit frame; wider images get wider frames, and the width stays positive. */
  lemma FrameScaleProperties(a: real, b: real)
    ensures FrameScaleX(1.0) == 1.0
    ensures a < b ==> FrameScaleX(a) < FrameScaleX(b)
    ensures a > 0.0 ==> FrameScaleX(a) > 0.0
  {
  }

  // ---------------------------------------------------------------------
  // One photo
  // ---------------------------------------------------------------------

  /**
   * One `PolaroidItem`: its anchors (re-drawn whenever its index or the
   * photo count changes), the outcome of its texture load, its
   * aspect and hover state, and the transforms the frame callback moves
   * (group position and uniform scale, frame x-scale, photo x-scale).  The
   * group is only rendered once the texture has loaded, so until then the
   * frame callback finds no group and does nothing.
   */
  class PolaroidItem {
    var anchors: Anchors
    var loaded: bool
    var aspect: real
    var hovered: bool
    var position: Vec3
    var scale: real
    var frameScaleX: real
    var photoScaleX: real

    constructor (d: AnchorDraws)
      ensures anchors == MakeAnchors(d)
      ensures !loaded && aspect == 1.0 && !hovered
      ensures position == Vec3(0.0, 0.0, 0.0) && scale == 1.0 && frameScaleX == 1.0 && photoScaleX == 1.0
    {
      anchors := MakeAnchors(d);
      loaded := false;
      aspect := 1.0;
      hovered := false;
      position := Vec3(0.0, 0.0, 0.0);
      scale := 1.0;
      frameScaleX := 1.0;
      photoScaleX := 1.0;
    }

    /** The texture loader's callback: the aspect changes only for an image with a non-zero width and height. */
    method TextureLoaded(width: real, height: real)
      modifies this
      ensures loaded && anchors == old(anchors)
      ensures aspect == if width != 0.0 && height != 0.0 then width / height else old(aspect)
      ensures hovered == old(hovered) && position == old(position) && scale == old(scale)
      ensures frameScaleX == old(frameScaleX) && photoScaleX == old(photoScaleX)
    {
      if width != 0.0 && height != 0.0 {
        aspect := width / height;
      }
      loaded := true;
    }

    /** Pointer over and pointer out. */
    method SetHovered(b: bool)
      modifies this
      ensures hovered == b && anchors == old(anchors)
      ensures loaded == old(loaded) && aspect == old(aspect) && position == old(position) && scale == old(scale)
      ensures frameScaleX == old(frameScaleX) && photoScaleX == old(photoScaleX)
    {
      hovered := b;
    }

    /**
     * The anchor memo re-running because the card's index or the number of
     * photos changed while the card kept its key: fresh anchors from new
     * draws, with the texture, hover state and transforms kept as they are.
     */
    method Reanchor(d: AnchorDraws)
      modifies this
      ensures anchors == MakeAnchors(d)
      ensures loaded == old(loaded) && aspect == old(aspect) && hovered == old(hovered)
      ensures position == old(position) && scale == old(scale)
      ensures frameScaleX == old(frameScaleX) && photoScaleX == old(photoScaleX)
    {
      anchors := MakeAnchors(d);
    }

    /** One frame of the item's callback. */
    method Frame(morph: real, focused: bool, focusPos: Vec3, globalScale: real, w: Wave)
      modifies this
      ensures anchors == old(anchors)
      ensures loaded == old(loaded) && aspect == old(aspect) && hovered == old(hovered)
      ensures !loaded ==>
        position == old(position) && scale == old(scale)
        && frameScaleX == old(frameScaleX) && photoScaleX == old(photoScaleX)
      ensures loaded ==>
        && position == LerpVec(old(position), FrameTarget(anchors, focused, focusPos, morph, hovered, w), PositionRate(focused))
        && scale == Lerp(old(scale), TargetScale(globalScale, focused, morph, hovered), SCALE_RATE)
        && frameScaleX == Lerp(old(frameScaleX), FrameScaleX(aspect), SCALE_RATE)
        && photoScaleX == Lerp(old(photoScaleX), aspect, SCALE_RATE)
    {
      if !loaded {
        return;
      }
      var targetPos := TargetPosition(anchors, focused, focusPos, morph, hovered, w);
      var targetScale := TargetScale(globalScale, focused, morph, hovered);
      if focused {
        position := LerpVec(position, targetPos, 0.2);
      } else {
        var currentTargetPos := targetPos;
        if morph > 0.0 && morph < 1.0 {
          currentTargetPos := LerpVec(anchors.galleryPos, anchors.treePos, morph);
        }
        position := LerpVec(position, currentTargetPos, 0.05);
      }
      scale := Lerp(scale, targetScale, SCALE_RATE);
      frameScaleX := Lerp(frameScaleX, FrameScaleX(aspect), SCALE_RATE);
      photoScaleX := Lerp(photoScaleX, aspect, SCALE_RATE);
    }
  }
}
