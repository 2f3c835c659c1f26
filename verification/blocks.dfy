/**
 * Block types, their inventory names and textures, and the rule that derives
 * a block's type and texture from its vertical layer.
 */
module BlockTypes {
  import opened Wrappers

  /** The three inventory slots of the sandbox. */
  datatype BlockType = Grass | Dirt | Stone

  /** The three textures loaded at start-up; only their identity matters here. */
  datatype Texture = GrassTexture | DirtTexture | StoneTexture

  /** The key under which a block type's slot is stored in the inventory. */
  function Name(t: BlockType): string
  {
    match t
    case Grass => "grass"
    case Dirt => "dirt"
    case Stone => "stone"
  }

  /**
   * Looks a key up among the inventory slots: only the three slot names are
   * recognised, and each names exactly the slot it came from.
   */
  function Parse(s: string): (r: Option<BlockType>)
    ensures r.Some? <==> s == "grass" || s == "dirt" || s == "stone"
    ensures r.Some? ==> Name(r.value) == s
  {
    if s == "grass" then Some(Grass)
    else if s == "dirt" then Some(Dirt)
    else if s == "stone" then Some(Stone)
    else None
  }

  /** Names and lookup are inverse: every slot is found under its own name. */
  lemma ParseName(t: BlockType)
    ensures Parse(Name(t)) == Some(t)
  {
  }

  /** The texture stored in a block type's inventory slot. */
  function TextureOf(t: BlockType): Texture
  {
    match t
    case Grass => GrassTexture
    case Dirt => DirtTexture
    case Stone => StoneTexture
  }

  /**
   * The type of a block at layer y: total, and the three cases partition the
   * integers (layer 0 is dirt, layer 1 is grass, every other layer is stone).
   */
  function GetBlockType(y: int): (t: BlockType)
    ensures t == Dirt <==> y == 0
    ensures t == Grass <==> y == 1
    ensures t == Stone <==> y != 0 && y != 1
  {
    if y == 0 then Dirt
    else if y == 1 then Grass
    else Stone
  }

  /**
   * The texture a generated block at layer y is drawn with. It follows the
   * same partition of layers as GetBlockType, so it is always the texture of
   * the height-derived type.
   */
  function GetBlockTexture(y: int): (x: Texture)
    ensures x == TextureOf(GetBlockType(y))
  {
    if y == 0 then DirtTexture
    else if y == 1 then GrassTexture
    else StoneTexture
  }
}
