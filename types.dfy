/**
 * The two modes of the tree and the geometry constants shared by the layers.
 */
module Types {

  /** `TreeState`: SCATTERED = 0, TREE = 1. */
  datatype TreeState = Scattered | Tree
  {
    /** The numeric enum value, which is also the morph target. */
    function Value(): (v: real)
      ensures v == 0.0 || v == 1.0
      ensures (v == 1.0) == this.Tree?
    {
      match this
      case Scattered => 0.0
      case Tree => 1.0
    }
  }

  /**
   * The taper of the cone at height h: `1 - (h + TREE_HEIGHT / 2) / TREE_HEIGHT`,
   * 1 at the foot of the tree, 0 at its tip, falling linearly in between.
   */
  function RadiusRatio(h: real): (ratio: real)
    ensures -TREE_HEIGHT / 2.0 <= h <= TREE_HEIGHT / 2.0 ==> 0.0 <= ratio <= 1.0
    ensures ratio + h / TREE_HEIGHT == 0.5
  {
    1.0 - (h + TREE_HEIGHT / 2.0) / TREE_HEIGHT
  }

  const FOLIAGE_COUNT: nat := 20000
  const ORNAMENT_COUNT: nat := 400
  const TREE_HEIGHT: real := 12.0
  const TREE_RADIUS: real := 5.0
  const SCATTER_RADIUS: real := 15.0
}
