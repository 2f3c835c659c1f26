/**
 * World generation as values: the chunk grid, the single column of blocks a
 * chunk produces, the 3x3 neighbourhood walked around the player, and the
 * generate-once update of the world that walking it performs.
 */
module Terrain {
  import opened BlockTypes

  /** Side length of a chunk, in world units. */
  const ChunkSize: int := 16
  /** Number of layers a chunk column may hold (layers 0 to ChunkHeight - 1). */
  const ChunkHeight: int := 10

  /**
   * A block in the world. Generated blocks sit at integer positions; a placed
   * block keeps the player's x and z, so those are reals. y is always an
   * integer layer.
   */
  datatype Block = Block(x: real, y: int, z: real, texture: Texture)

  /** The key of a chunk in the generated-chunk set: its grid coordinates. */
  datatype ChunkKey = ChunkKey(x: int, z: int)

  /** The world: every block in it (with repetitions) and the chunks generated so far. */
  datatype WorldState = WorldState(blocks: multiset<Block>, chunks: set<ChunkKey>)

  function Min(a: int, b: int): int { if a <= b then a else b }
  function Max(a: int, b: int): int { if a <= b then b else a }

  /** The grid coordinate of the chunk containing p, on one horizontal axis. */
  function ChunkOf(p: real): int
  {
    (p / ChunkSize as real).Floor
  }

  /** ChunkOf(p) is the chunk c whose span [16c, 16c + 16) contains p. */
  lemma ChunkOfSpan(p: real)
    ensures var c := ChunkOf(p); (ChunkSize * c) as real <= p < (ChunkSize * (c + 1)) as real
  {
  }

  /** The chunk that contains a block. */
  function KeyOf(b: Block): ChunkKey
  {
    ChunkKey(ChunkOf(b.x), ChunkOf(b.z))
  }

  /** The block that chunk generation puts at layer y of column (x, z). */
  function LayerBlock(x: int, z: int, y: int): Block
  {
    Block(x as real, y, z as real, GetBlockTexture(y))
  }

  /** The blocks of column (x, z) of height h among its first n layers. */
  function Layers(x: int, z: int, h: int, n: nat): multiset<Block>
  {
    if n == 0 then multiset{}
    else Layers(x, z, h, n - 1) + (if n - 1 <= h then multiset{LayerBlock(x, z, n - 1)} else multiset{})
  }

  /** What generating one chunk adds: the column at (x, z) for height h. */
  function Column(x: int, z: int, h: int): multiset<Block>
  {
    Layers(x, z, h, ChunkHeight as nat)
  }

  lemma {:induction false} LayersMultiplicity(x: int, z: int, h: int, n: nat, b: Block)
    ensures Layers(x, z, h, n)[b] == if b == LayerBlock(x, z, b.y) && 0 <= b.y < n && b.y <= h then 1 else 0
  {
    if n > 0 {
      LayersMultiplicity(x, z, h, n - 1, b);
    }
  }

  lemma {:induction false} LayersSize(x: int, z: int, h: int, n: nat)
    ensures |Layers(x, z, h, n)| == Min(Max(h + 1, 0), n)
  {
    if n > 0 {
      LayersSize(x, z, h, n - 1);
    }
  }

  /**
   * A column holds each block at most once, and holds exactly the blocks at
   * (x, z) on the layers y with 0 <= y < ChunkHeight and y <= h, each with the
   * texture of its layer.
   */
  lemma ColumnMultiplicity(x: int, z: int, h: int, b: Block)
    ensures Column(x, z, h)[b] ==
      if b.x == x as real && b.z == z as real && 0 <= b.y < ChunkHeight && b.y <= h
         && b.texture == GetBlockTexture(b.y) then 1 else 0
  {
    LayersMultiplicity(x, z, h, ChunkHeight as nat, b);
  }

  /** A column holds min(max(h + 1, 0), ChunkHeight) blocks: none at all when h < 0. */
  lemma ColumnSize(x: int, z: int, h: int)
    ensures |Column(x, z, h)| == Min(Max(h + 1, 0), ChunkHeight)
    ensures h < 0 ==> Column(x, z, h) == multiset{}
  {
    LayersSize(x, z, h, ChunkHeight as nat);
  }

  /** The column generated for chunk k: at the chunk's origin, with the height sampled there. */
  function ChunkColumn(k: ChunkKey, height: (int, int) -> int): multiset<Block>
  {
    var x, z := k.x * ChunkSize, k.z * ChunkSize;
    Column(x, z, height(x, z))
  }

  /** Every block of chunk k's column lies inside chunk k. */
  lemma ChunkColumnInChunk(k: ChunkKey, height: (int, int) -> int, b: Block)
    requires ChunkColumn(k, height)[b] > 0
    ensures KeyOf(b) == k
  {
    var x, z := k.x * ChunkSize, k.z * ChunkSize;
    ColumnMultiplicity(x, z, height(x, z), b);
    var cx, cz := ChunkOf(b.x), ChunkOf(b.z);
    ChunkOfSpan(b.x);
    ChunkOfSpan(b.z);
    assert ChunkSize * cx <= x < ChunkSize * (cx + 1);
    assert ChunkSize * cz <= z < ChunkSize * (cz + 1);
  }

  /** The keys (x, z) for zLo <= z < zHi, in increasing z. */
  function RowKeys(x: int, zLo: int, zHi: int): seq<ChunkKey>
    decreases zHi - zLo
  {
    if zHi <= zLo then [] else RowKeys(x, zLo, zHi - 1) + [ChunkKey(x, zHi - 1)]
  }

  /** The keys of the rectangle [xLo, xHi) x [zLo, zHi), x outermost, as the nested loops visit them. */
  function GridKeys(xLo: int, xHi: int, zLo: int, zHi: int): seq<ChunkKey>
    decreases xHi - xLo
  {
    if xHi <= xLo then [] else GridKeys(xLo, xHi - 1, zLo, zHi) + RowKeys(xHi - 1, zLo, zHi)
  }

  /** The 3x3 chunks around chunk (cx, cz), in visiting order. */
  function Neighbourhood(cx: int, cz: int): seq<ChunkKey>
  {
    GridKeys(cx - 1, cx + 2, cz - 1, cz + 2)
  }

  lemma {:induction false} RowKeysMembers(x: int, zLo: int, zHi: int)
    ensures |RowKeys(x, zLo, zHi)| == Max(zHi - zLo, 0)
    ensures forall k :: k in RowKeys(x, zLo, zHi) <==> k.x == x && zLo <= k.z < zHi
    decreases zHi - zLo
  {
    if zLo < zHi {
      RowKeysMembers(x, zLo, zHi - 1);
    }
  }

  lemma {:induction false} GridKeysMembers(xLo: int, xHi: int, zLo: int, zHi: int)
    ensures forall k :: k in GridKeys(xLo, xHi, zLo, zHi) <==> xLo <= k.x < xHi && zLo <= k.z < zHi
    decreases xHi - xLo
  {
    if xLo < xHi {
      GridKeysMembers(xLo, xHi - 1, zLo, zHi);
      RowKeysMembers(xHi - 1, zLo, zHi);
    }
  }

  lemma {:induction false} GridKeysSize(xLo: int, xHi: int, zLo: int, zHi: int)
    requires zLo <= zHi
    ensures |GridKeys(xLo, xHi, zLo, zHi)| == Max(xHi - xLo, 0) * (zHi - zLo)
    decreases xHi - xLo
  {
    if xLo < xHi {
      GridKeysSize(xLo, xHi - 1, zLo, zHi);
      RowKeysMembers(xHi - 1, zLo, zHi);
      var m, w := xHi - xLo, zHi - zLo;
      assert (m - 1) * w + w == m * w;
    }
  }

  /** The neighbourhood has nine keys: exactly the chunks at most one step away in each axis. */
  lemma NeighbourhoodMembers(cx: int, cz: int)
    ensures |Neighbourhood(cx, cz)| == 9
    ensures forall k :: k in Neighbourhood(cx, cz) <==> cx - 1 <= k.x <= cx + 1 && cz - 1 <= k.z <= cz + 1
  {
    GridKeysMembers(cx - 1, cx + 2, cz - 1, cz + 2);
    GridKeysSize(cx - 1, cx + 2, cz - 1, cz + 2);
  }

  /** One visit of the walk: generate chunk k's column and mark k, unless k is already marked. */
  function Step(s: WorldState, k: ChunkKey, height: (int, int) -> int): WorldState
  {
    if k in s.chunks then s
    else WorldState(s.blocks + ChunkColumn(k, height), s.chunks + {k})
  }

  /** Visiting the keys ks in order. */
  function GenerateAll(s: WorldState, ks: seq<ChunkKey>, height: (int, int) -> int): WorldState
    decreases |ks|
  {
    if ks == [] then s
    else Step(GenerateAll(s, ks[..|ks| - 1], height), ks[|ks| - 1], height)
  }

  /** Generating the chunks around a player at horizontal position (px, pz). */
  function Generate(s: WorldState, px: real, pz: real, height: (int, int) -> int): WorldState
  {
    GenerateAll(s, Neighbourhood(ChunkOf(px), ChunkOf(pz)), height)
  }

  lemma GenerateAllSnoc(s: WorldState, ks: seq<ChunkKey>, k: ChunkKey, height: (int, int) -> int)
    ensures GenerateAll(s, ks + [k], height) == Step(GenerateAll(s, ks, height), k, height)
  {
    assert (ks + [k])[..|ks|] == ks;
  }

  lemma {:induction false} GenerateAllAppend(s: WorldState, ks: seq<ChunkKey>, more: seq<ChunkKey>, height: (int, int) -> int)
    ensures GenerateAll(s, ks + more, height) == GenerateAll(GenerateAll(s, ks, height), more, height)
    decreases |more|
  {
    if more == [] {
      assert ks + more == ks;
    } else {
      var front, k := more[..|more| - 1], more[|more| - 1];
      assert more == front + [k];
      assert ks + more == (ks + front) + [k];
      GenerateAllAppend(s, ks, front, height);
      GenerateAllSnoc(s, ks + front, k, height);
      GenerateAllSnoc(GenerateAll(s, ks, height), front, k, height);
    }
  }

  /** Visiting one more key of a row is one more Step. */
  lemma RowStep(s: WorldState, x: int, zLo: int, z: int, height: (int, int) -> int)
    requires zLo <= z
    ensures GenerateAll(s, RowKeys(x, zLo, z + 1), height)
         == Step(GenerateAll(s, RowKeys(x, zLo, z), height), ChunkKey(x, z), height)
  {
    GenerateAllSnoc(s, RowKeys(x, zLo, z), ChunkKey(x, z), height);
  }

  /** Visiting one more row of a grid is visiting that row after the earlier ones. */
  lemma GridStep(s: WorldState, xLo: int, x: int, zLo: int, zHi: int, height: (int, int) -> int)
    requires xLo <= x
    ensures GenerateAll(s, GridKeys(xLo, x + 1, zLo, zHi), height)
         == GenerateAll(GenerateAll(s, GridKeys(xLo, x, zLo, zHi), height), RowKeys(x, zLo, zHi), height)
  {
    GenerateAllAppend(s, GridKeys(xLo, x, zLo, zHi), RowKeys(x, zLo, zHi), height);
  }

  /**
   * Visiting ks marks exactly the keys of ks, and adds to the world exactly
   * the columns of the keys of ks that were not marked before, each once:
   * the multiplicity of every block grows by its multiplicity in the column
   * of its own chunk when that chunk is a newly visited key, and not at all
   * otherwise.
   */
  lemma {:induction false} GenerateAllEffect(s: WorldState, ks: seq<ChunkKey>, height: (int, int) -> int)
    ensures GenerateAll(s, ks, height).chunks == s.chunks + set k | k in ks
    ensures forall b ::
              GenerateAll(s, ks, height).blocks[b] ==
              s.blocks[b] + (if KeyOf(b) in ks && KeyOf(b) !in s.chunks then ChunkColumn(KeyOf(b), height)[b] else 0)
    decreases |ks|
  {
    if ks != [] {
      var q, k := ks[..|ks| - 1], ks[|ks| - 1];
      assert ks == q + [k];
      GenerateAllEffect(s, q, height);
      var t := GenerateAll(s, q, height);
      if k !in t.chunks {
        forall b | KeyOf(b) != k
          ensures ChunkColumn(k, height)[b] == 0
        {
          if ChunkColumn(k, height)[b] > 0 {
            ChunkColumnInChunk(k, height, b);
          }
        }
      }
    }
  }

  /** Visiting keys that are all marked already changes nothing. */
  lemma {:induction false} GenerateAllIdle(s: WorldState, ks: seq<ChunkKey>, height: (int, int) -> int)
    requires forall k :: k in ks ==> k in s.chunks
    ensures GenerateAll(s, ks, height) == s
    decreases |ks|
  {
    if ks != [] {
      GenerateAllIdle(s, ks[..|ks| - 1], height);
    }
  }

  /**
   * Generation around (px, pz): afterwards the nine chunks around the
   * player's chunk are marked and no other chunk is newly marked; the blocks
   * added are exactly the columns of those of the nine that were not marked
   * before.
   */
  lemma GenerateEffect(s: WorldState, px: real, pz: real, height: (int, int) -> int)
    ensures var cx, cz := ChunkOf(px), ChunkOf(pz);
      forall k :: k in Generate(s, px, pz, height).chunks <==>
        k in s.chunks || (cx - 1 <= k.x <= cx + 1 && cz - 1 <= k.z <= cz + 1)
    ensures var cx, cz := ChunkOf(px), ChunkOf(pz);
      forall b :: Generate(s, px, pz, height).blocks[b] ==
        s.blocks[b] + (if cx - 1 <= KeyOf(b).x <= cx + 1 && cz - 1 <= KeyOf(b).z <= cz + 1 && KeyOf(b) !in s.chunks
                       then ChunkColumn(KeyOf(b), height)[b] else 0)
  {
    var cx, cz := ChunkOf(px), ChunkOf(pz);
    NeighbourhoodMembers(cx, cz);
    GenerateAllEffect(s, Neighbourhood(cx, cz), height);
  }

  /** Generating twice around the same position adds nothing the second time. */
  lemma GenerateIdempotent(s: WorldState, px: real, pz: real, height: (int, int) -> int)
    ensures Generate(Generate(s, px, pz, height), px, pz, height) == Generate(s, px, pz, height)
  {
    var ks := Neighbourhood(ChunkOf(px), ChunkOf(pz));
    GenerateAllEffect(s, ks, height);
    GenerateAllIdle(GenerateAll(s, ks, height), ks, height);
  }
}
