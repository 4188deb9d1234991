/**
 * The top-level component: the mode classifier that turns the openness
 * measure into a `TreeState`, the flag shown by the camera frame, and the
 * configuration state the sliders and the photo list live in.
 */
module App {
  import opened Types
  import HandTracking

  /** Openness strictly below this value is a closed fist, which forms the tree. */
  const PINCH_THRESHOLD: real := 0.2

  /** `pinchDistance < 0.2 ? TREE : SCATTERED`. */
  function TargetState(pinchDistance: real): (s: TreeState)
    ensures s == Tree <==> pinchDistance < PINCH_THRESHOLD
    ensures s == Scattered <==> pinchDistance >= PINCH_THRESHOLD
  {
    if pinchDistance < PINCH_THRESHOLD then Tree else Scattered
  }

  /** The flag handed to the overlay: `targetState === TREE`. */
  function IsPinched(pinchDistance: real): (b: bool)
    ensures b <==> pinchDistance < PINCH_THRESHOLD
  {
    TargetState(pinchDistance) == Tree
  }

  /** The threshold value itself already counts as open. */
  lemma ThresholdBoundary()
    ensures TargetState(0.2) == Scattered
    ensures TargetState(0.19999) == Tree
    ensures !IsPinched(0.2) && IsPinched(0.0)
  {
  }

  /** The hook starts open, so the scene starts scattered. */
  lemma InitialModeIsScattered()
    ensures TargetState(HandTracking.INITIAL_OPENNESS) == Scattered
    ensures !IsPinched(HandTracking.INITIAL_OPENNESS)
  {
  }

  /**
   * Losing the hand never leaves the tree formed: from any non-negative
   * openness, four frames without a hand reach the threshold and the mode
   * is SCATTERED from then on, whatever the number of further absent frames.
   */
  lemma {:induction false} LostHandScatters(prev: real, n: nat)
    requires prev >= 0.0
    requires n >= 4
    ensures TargetState(HandTracking.RecoverOpennessN(prev, n)) == Scattered
  {
    if prev <= 1.0 {
      HandTracking.RecoverOpennessClosedForm(prev, n);
      assert HandTracking.RECOVERY_STEP * n as real >= 0.2;
    } else {
      HandTracking.RecoverFromAboveOne(prev, n);
    }
  }

  /** The default audio track of the overlay. */
  const DEFAULT_MUSIC_SRC: string := "https://upload.wikimedia.org/wikipedia/commons/e/e6/Kevin_MacLeod_-_Jingle_Bells.ogg"
  const DEFAULT_MUSIC_TITLE: string := "Christmas List - Anson Seabra"

  /** The slider ranges of the overlay. */
  ghost predicate TreeScaleInRange(s: real) { 0.5 <= s <= 1.5 }
  ghost predicate PhotoScaleInRange(s: real) { 0.5 <= s <= 2.0 }

  /**
   * The state the top-level component owns.  The colour choices are
   * passed through to rendering and are not modelled.
   */
  class AppState {
    var treeScale: real
    var photoScale: real
    var photos: seq<string>
    var musicSrc: string
    var musicTitle: string

    ghost predicate Valid()
      reads this
    {
      TreeScaleInRange(treeScale) && PhotoScaleInRange(photoScale)
    }

    constructor ()
      ensures Valid()
      ensures treeScale == 1.0 && photoScale == 1.0 && photos == []
      ensures musicSrc == DEFAULT_MUSIC_SRC && musicTitle == DEFAULT_MUSIC_TITLE
    {
      treeScale := 1.0;
      photoScale := 1.0;
      photos := [];
      musicSrc := DEFAULT_MUSIC_SRC;
      musicTitle := DEFAULT_MUSIC_TITLE;
    }

    /** The tree-scale slider; the range input only produces values in [0.5, 1.5]. */
    method SetTreeScale(v: real)
      requires Valid() && TreeScaleInRange(v)
      modifies this
      ensures Valid() && treeScale == v
      ensures photoScale == old(photoScale) && photos == old(photos)
      ensures musicSrc == old(musicSrc) && musicTitle == old(musicTitle)
    {
      treeScale := v;
    }

    /** The photo-size slider; the range input only produces values in [0.5, 2.0]. */
    method SetPhotoScale(v: real)
      requires Valid() && PhotoScaleInRange(v)
      modifies this
      ensures Valid() && photoScale == v
      ensures treeScale == old(treeScale) && photos == old(photos)
      ensures musicSrc == old(musicSrc) && musicTitle == old(musicTitle)
    {
      photoScale := v;
    }
  }
}
