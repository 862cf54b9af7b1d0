/** The block kinds (Block.java). */
module Blocks {
  import opened Wrappers

  /** The two kinds of block; each carries a fixed texture path. */
  datatype Block = AIR | GRASS

  /** `getTexturePath`: the path given to the kind's constructor. AIR was built
   *  with null (no texture); GRASS with "grass_block.png". */
  function TexturePath(b: Block): (path: Option<string>)
    ensures path.None? <==> b == AIR
    ensures path.Some? ==> path.value == "grass_block.png"
  {
    match b
    case AIR => None
    case GRASS => Some("grass_block.png")
  }
}
