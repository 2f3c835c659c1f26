/**
 * The sandbox's mutable state and the operations that change it in place:
 * the world (the blocks in the scene and the generated-chunk table) and the
 * inventory, with chunk generation, collecting, placing and breaking.
 */
module Sandbox {
  import opened Wrappers
  import opened BlockTypes
  import opened Terrain
  import opened Edits

  class World {
    /** Terrain height at a world column (x, z): the scaled, floored noise sample. */
    const height: (int, int) -> int
    /** The blocks in the scene. */
    var blocks: multiset<Block>
    /** The chunks generated so far. */
    var chunks: set<ChunkKey>

    constructor (height: (int, int) -> int)
      ensures this.height == height
      ensures blocks == multiset{} && chunks == {}
    {
      this.height := height;
      blocks := multiset{};
      chunks := {};
    }

    function State(): WorldState
      reads this
    {
      WorldState(blocks, chunks)
    }

    /**
     * Adds the column of chunk origin (x, z): one block per layer y with
     * 0 <= y < ChunkHeight and y <= the height sampled at (x, z).
     */
    method CreateChunk(x: int, z: int)
      modifies this
      ensures blocks == old(blocks) + Column(x, z, height(x, z))
      ensures chunks == old(chunks)
    {
      var y := 0;
      while y < ChunkHeight
        invariant 0 <= y <= ChunkHeight
        invariant blocks == old(blocks) + Layers(x, z, height(x, z), y)
        invariant chunks == old(chunks)
      {
        var h := height(x, z);
        if y <= h {
          blocks := blocks + multiset{LayerBlock(x, z, y)};
        }
        y := y + 1;
      }
    }

    /**
     * Generates, once each, the chunks (x, z) for zLo <= z < zHi that are not
     * generated yet, in increasing z: one pass of the inner loop below.
     */
    method GenerateRow(x: int, zLo: int, zHi: int)
      requires zLo <= zHi
      modifies this
      ensures State() == GenerateAll(old(State()), RowKeys(x, zLo, zHi), height)
    {
      var z := zLo;
      while z < zHi
        invariant zLo <= z <= zHi
        invariant State() == GenerateAll(old(State()), RowKeys(x, zLo, z), height)
      {
        var key := ChunkKey(x, z);
        if key !in chunks {
          CreateChunk(x * ChunkSize, z * ChunkSize);
          chunks := chunks + {key};
        }
        RowStep(old(State()), x, zLo, z, height);
        z := z + 1;
      }
    }

    /**
     * Generates, once each, the 3x3 chunks around the chunk that contains the
     * player at horizontal position (px, pz).
     */
    method GenerateChunks(px: real, pz: real)
      modifies this
      ensures State() == Generate(old(State()), px, pz, height)
    {
      var cx := ChunkOf(px);
      var cz := ChunkOf(pz);
      var x := cx - 1;
      while x <= cx + 1
        invariant cx - 1 <= x <= cx + 2
        invariant State() == GenerateAll(old(State()), GridKeys(cx - 1, x, cz - 1, cz + 2), height)
      {
        GenerateRow(x, cz - 1, cz + 2);
        GridStep(old(State()), cx - 1, x, cz - 1, cz + 2, height);
        x := x + 1;
      }
    }
  }

  class Inventory {
    /** The count held in each slot. */
    var counts: map<BlockType, int>
    /** The slot that placing draws from. */
    var selected: BlockType

    function Snapshot(): Inv
      reads this
    {
      Inv(counts, selected)
    }

    /** Every slot exists and holds a non-negative count. */
    ghost predicate Valid()
      reads this
    {
      HasSlots(Snapshot()) && NonNegative(Snapshot())
    }

    constructor ()
      ensures Valid() && Snapshot() == Initial()
    {
      counts := map[Grass := 0, Dirt := 0, Stone := 0];
      selected := Grass;
      EmptySlots();
    }

    /** Raises the slot named blockType by one; a name that is not a slot changes nothing. */
    method CollectBlock(blockType: string)
      requires Valid()
      modifies this
      ensures Valid() && Snapshot() == Collect(old(Snapshot()), blockType)
    {
      var t := Parse(blockType);
      if t.Some? {
        counts := counts[t.value := counts[t.value] + 1];
      }
    }
  }

  /**
   * Places a block of the selected type at the player's position, snapped
   * down to the layer below py, when the selected slot is not empty.
   */
  method PlaceBlock(inventory: Inventory, world: World, px: real, py: real, pz: real)
    requires inventory.Valid()
    modifies inventory, world
    ensures inventory.Valid()
    ensures Game(inventory.Snapshot(), world.State())
         == Place(Game(old(inventory.Snapshot()), old(world.State())), px, py, pz)
  {
    ghost var g := Game(inventory.Snapshot(), world.State());
    PlaceEffect(g, px, py, pz);
    var t := inventory.selected;
    if inventory.counts[t] > 0 {
      world.blocks := world.blocks + multiset{PlacedBlock(t, px, py, pz)};
      inventory.counts := inventory.counts[t := inventory.counts[t] - 1];
    }
  }

  /**
   * One break step: while breaking, the block the pick found (if any) is
   * credited to the slot of the type its layer gives and removed from the
   * world.
   */
  method CheckBlockBreaking(inventory: Inventory, world: World, breaking: bool, hit: Option<Block>)
    requires inventory.Valid()
    modifies inventory, world
    ensures inventory.Valid()
    ensures Game(inventory.Snapshot(), world.State())
         == Break(Game(old(inventory.Snapshot()), old(world.State())), breaking, hit)
  {
    if breaking && hit.Some? {
      var block := hit.value;
      var blockType := GetBlockType(block.y);
      inventory.CollectBlock(Name(blockType));
      world.blocks := world.blocks - multiset{block};
    }
  }
}
