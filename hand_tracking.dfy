/**
 * The gesture classifier of the hand-tracking hook: what one tracker result
 * does to the two pieces of state the hook exposes, the openness measure
 * (`pinchDistance`, 1 = open, 0 = closed) and the mirrored hand centre
 * (`handPosition`).  The tracker, the camera and the script loading are
 * outside the model; a result arrives as the list of detected hands, each a
 * list of 21 normalised landmarks.  `Math.sqrt` is passed in as `sqrt`.
 */
module HandTracking {
  import opened Numerics
  import opened Geometry

  datatype Landmark = Landmark(x: real, y: real, z: real)

  /** Indices of the index, middle, ring and little fingertips. */
  const FINGERTIPS: seq<nat> := [8, 12, 16, 20]
  /** Index of the wrist and of the middle-finger knuckle. */
  const WRIST: nat := 0
  const MIDDLE_KNUCKLE: nat := 9
  /** Openness gained per frame without a hand, and hand-position decay per frame. */
  const RECOVERY_STEP: real := 0.05
  const HAND_DECAY: real := 0.95
  /** The hook starts with an open hand. */
  const INITIAL_OPENNESS: real := 1.0

  ghost predicate NonNegative(sqrt: real -> real)
  {
    forall v :: 0.0 <= v ==> 0.0 <= sqrt(v)
  }

  /** Euclidean distance between two landmarks, through the supplied square root. */
  function Distance(a: Landmark, b: Landmark, sqrt: real -> real): real
  {
    var dx := b.x - a.x;
    var dy := b.y - a.y;
    var dz := b.z - a.z;
    sqrt(dx * dx + dy * dy + dz * dz)
  }

  lemma DistanceNonNegative(a: Landmark, b: Landmark, sqrt: real -> real)
    requires NonNegative(sqrt)
    ensures Distance(a, b, sqrt) >= 0.0
  {
    var dx := b.x - a.x;
    var dy := b.y - a.y;
    var dz := b.z - a.z;
    SquareNonNeg(dx);
    SquareNonNeg(dy);
    SquareNonNeg(dz);
  }

  /** Sum of the distances from the wrist to the given landmarks, accumulated left to right. */
  function TipDistanceSum(lm: seq<Landmark>, tips: seq<nat>, sqrt: real -> real): real
    requires |lm| > WRIST
    requires forall k :: 0 <= k < |tips| ==> tips[k] < |lm|
  {
    if tips == [] then 0.0
    else TipDistanceSum(lm, tips[..|tips| - 1], sqrt) + Distance(lm[WRIST], lm[tips[|tips| - 1]], sqrt)
  }

  lemma {:induction false} TipDistanceSumNonNegative(lm: seq<Landmark>, tips: seq<nat>, sqrt: real -> real)
    requires |lm| > WRIST
    requires forall k :: 0 <= k < |tips| ==> tips[k] < |lm|
    requires NonNegative(sqrt)
    ensures TipDistanceSum(lm, tips, sqrt) >= 0.0
  {
    if tips != [] {
      TipDistanceSumNonNegative(lm, tips[..|tips| - 1], sqrt);
      DistanceNonNegative(lm[WRIST], lm[tips[|tips| - 1]], sqrt);
    }
  }

  /** The sum over the four fingertips, written out. */
  lemma FingertipSum(lm: seq<Landmark>, sqrt: real -> real)
    requires |lm| == 21
    ensures TipDistanceSum(lm, FINGERTIPS, sqrt)
         == Distance(lm[0], lm[8], sqrt) + Distance(lm[0], lm[12], sqrt)
          + Distance(lm[0], lm[16], sqrt) + Distance(lm[0], lm[20], sqrt)
  {
    var w := lm[WRIST];
    assert FINGERTIPS[..3] == [8, 12, 16];
    assert [8, 12, 16][..2] == [8, 12];
    assert [8, 12][..1] == [8];
    assert [8][..0] == [];
    assert TipDistanceSum(lm, [8], sqrt) == Distance(w, lm[8], sqrt);
    assert TipDistanceSum(lm, [8, 12], sqrt) == Distance(w, lm[8], sqrt) + Distance(w, lm[12], sqrt);
    assert TipDistanceSum(lm, [8, 12, 16], sqrt)
        == Distance(w, lm[8], sqrt) + Distance(w, lm[12], sqrt) + Distance(w, lm[16], sqrt);
  }

  /**
   * The openness of a detected hand: the `forEach` over the four fingertips
   * that accumulates their distances to the wrist, divided by four.
   */
  method Openness(lm: seq<Landmark>, sqrt: real -> real) returns (avgDist: real)
    requires |lm| == 21
    ensures avgDist == TipDistanceSum(lm, FINGERTIPS, sqrt) / 4.0
    ensures avgDist == (Distance(lm[0], lm[8], sqrt) + Distance(lm[0], lm[12], sqrt)
                        + Distance(lm[0], lm[16], sqrt) + Distance(lm[0], lm[20], sqrt)) / 4.0
    ensures NonNegative(sqrt) ==> avgDist >= 0.0
  {
    var totalDist := 0.0;
    var i := 0;
    while i < |FINGERTIPS|
      invariant 0 <= i <= |FINGERTIPS|
      invariant totalDist == TipDistanceSum(lm, FINGERTIPS[..i], sqrt)
    {
      assert FINGERTIPS[..i + 1][..i] == FINGERTIPS[..i];
      var tip := lm[FINGERTIPS[i]];
      totalDist := totalDist + Distance(lm[WRIST], tip, sqrt);
      i := i + 1;
    }
    assert FINGERTIPS[..4] == FINGERTIPS;
    FingertipSum(lm, sqrt);
    avgDist := totalDist / 4.0;
    if NonNegative(sqrt) {
      TipDistanceSumNonNegative(lm, FINGERTIPS, sqrt);
    }
  }

  /**
   * The hand centre: the midpoint of wrist and middle knuckle, moved so that
   * 0.5 is the origin, scaled to [-1, 1] and mirrored horizontally.
   */
  function HandCenter(wrist: Landmark, knuckle: Landmark): Vec2
  {
    var cx := (wrist.x + knuckle.x) / 2.0;
    var cy := (wrist.y + knuckle.y) / 2.0;
    Vec2((cx - 0.5) * -2.0, (cy - 0.5) * 2.0)
  }

  /** Landmarks inside the unit square give a hand centre inside [-1, 1]^2, mirrored in x. */
  lemma HandCenterInRange(wrist: Landmark, knuckle: Landmark)
    requires 0.0 <= wrist.x <= 1.0 && 0.0 <= knuckle.x <= 1.0
    requires 0.0 <= wrist.y <= 1.0 && 0.0 <= knuckle.y <= 1.0
    ensures -1.0 <= HandCenter(wrist, knuckle).x <= 1.0
    ensures -1.0 <= HandCenter(wrist, knuckle).y <= 1.0
    ensures HandCenter(wrist, knuckle).x == 1.0 - (wrist.x + knuckle.x)
    ensures HandCenter(wrist, knuckle).y == (wrist.y + knuckle.y) - 1.0
  {
  }

  /** Without a hand the openness drifts back towards open: `min(prev + 0.05, 1)`. */
  function RecoverOpenness(prev: real): (next: real)
    ensures next <= 1.0
    ensures prev <= 1.0 ==> prev <= next
    ensures next == 1.0 || next == prev + RECOVERY_STEP
  {
    Min(prev + RECOVERY_STEP, 1.0)
  }

  /** Openness after n consecutive frames without a hand. */
  function RecoverOpennessN(prev: real, n: nat): real
  {
    if n == 0 then prev else RecoverOpenness(RecoverOpennessN(prev, n - 1))
  }

  /** After n absent frames the openness is `min(prev + 0.05 n, 1)` (for prev <= 1). */
  lemma {:induction false} RecoverOpennessClosedForm(prev: real, n: nat)
    requires prev <= 1.0
    ensures RecoverOpennessN(prev, n) == Min(prev + RECOVERY_STEP * n as real, 1.0)
  {
    if n > 0 {
      RecoverOpennessClosedForm(prev, n - 1);
    }
  }

  /**
   * An openness above 1 (an average fingertip distance the landmarks can
   * produce) is capped to exactly 1 by the first absent frame and stays there.
   */
  lemma {:induction false} RecoverFromAboveOne(prev: real, n: nat)
    requires prev > 1.0
    requires n >= 1
    ensures RecoverOpennessN(prev, n) == 1.0
  {
    if n > 1 {
      RecoverFromAboveOne(prev, n - 1);
    }
  }

  /** From any non-negative prev, twenty absent frames make the hand fully open. */
  lemma RecoveryReachesOpen(prev: real, n: nat)
    requires prev >= 0.0
    requires n >= 20
    ensures RecoverOpennessN(prev, n) == 1.0
  {
    if prev <= 1.0 {
      RecoverOpennessClosedForm(prev, n);
    } else {
      RecoverFromAboveOne(prev, n);
    }
  }

  /** Without a hand each coordinate of the hand position is scaled by 0.95. */
  function DecayHand(p: Vec2): (q: Vec2)
    ensures Abs(q.x) <= Abs(p.x) && Abs(q.y) <= Abs(p.y)
    ensures (p.x > 0.0 ==> q.x > 0.0) && (p.x < 0.0 ==> q.x < 0.0) && (p.x == 0.0 ==> q.x == 0.0)
    ensures (p.y > 0.0 ==> q.y > 0.0) && (p.y < 0.0 ==> q.y < 0.0) && (p.y == 0.0 ==> q.y == 0.0)
    ensures p != Vec2(0.0, 0.0) ==> Abs(q.x) + Abs(q.y) < Abs(p.x) + Abs(p.y)
  {
    Vec2(p.x * HAND_DECAY, p.y * HAND_DECAY)
  }

  /**
   * The state the hook keeps: `pinchDistance` and `handPosition`, starting
   * open (1) and centred (0, 0).
   */
  class HandTracker {
    var pinchDistance: real
    var handPosition: Vec2

    constructor ()
      ensures pinchDistance == INITIAL_OPENNESS
      ensures handPosition == Vec2(0.0, 0.0)
    {
      pinchDistance := INITIAL_OPENNESS;
      handPosition := Vec2(0.0, 0.0);
    }

    /**
     * The `onResults` callback.  With at least one detected hand the first
     * one sets both values; with none, openness recovers and the position
     * decays.
     */
    method OnResults(hands: seq<seq<Landmark>>, sqrt: real -> real)
      requires forall k :: 0 <= k < |hands| ==> |hands[k]| == 21
      modifies this
      ensures |hands| > 0 ==>
        && pinchDistance == TipDistanceSum(hands[0], FINGERTIPS, sqrt) / 4.0
        && handPosition == HandCenter(hands[0][WRIST], hands[0][MIDDLE_KNUCKLE])
      ensures |hands| == 0 ==>
        && pinchDistance == RecoverOpenness(old(pinchDistance))
        && handPosition == DecayHand(old(handPosition))
      ensures NonNegative(sqrt) && old(pinchDistance) >= 0.0 ==> pinchDistance >= 0.0
    {
      if |hands| > 0 {
        var landmarks := hands[0];
        var avgDist := Openness(landmarks, sqrt);
        pinchDistance := avgDist;
        handPosition := HandCenter(landmarks[WRIST], landmarks[MIDDLE_KNUCKLE]);
      } else {
        pinchDistance := RecoverOpenness(pinchDistance);
        handPosition := DecayHand(handPosition);
      }
    }
  }
}
