# Voxel sandbox: world generation and inventory

A Dafny model of the world-and-inventory logic of a small browser voxel
sandbox (`script.js`). The sandbox keeps a scene of unit blocks around a
player, generates terrain chunk by chunk around the player's position, and
lets the player break blocks into a three-slot inventory (grass, dirt, stone)
and place the selected block back into the world.

What the model covers:

- **Block types** (`blocks.dfy`, module `BlockTypes`). A block's type and its
  generated texture both follow its layer: layer 0 is dirt, layer 1 is grass
  and every other layer is stone. Every layer above 1 is stone, so stone sits
  on top of grass in generated columns. Inventory slots are looked up by name
  (`"grass"`, `"dirt"`, `"stone"`), and every other name misses.
- **Terrain** (`terrain.dfy`, module `Terrain`). Chunks are 16 units wide,
  and a chunk column holds at most 10 layers. The player's chunk is
  `floor(p / 16)` on each horizontal axis. Generating chunk `(cx, cz)` samples
  the terrain height once, at the chunk origin `(16cx, 16cz)`, and adds one
  column of blocks there, so each chunk is a single column. Walking the 3x3
  neighbourhood generates each unmarked chunk and then marks it. The walk is a
  fold over the keys in the order of the nested loops. The lemmas state which
  keys end up marked, which blocks are added (exactly, with multiplicities)
  and that a second walk adds nothing.
- **Edits** (`edits.dfy`, module `Edits`). These are the inventory and the
  collect, place and break steps as functions on values, plus any sequence of
  steps. The lemmas state each step's exact effect, that placing and breaking
  move one block between the world and the inventory, and that counts never
  go negative.
- **Mutable state** (`sandbox.dfy`, module `Sandbox`). The `World` and
  `Inventory` classes hold the state that the source keeps in globals. Their
  methods update it in place, with loops where the source loops. The inner
  loop of chunk generation is a method of its own, `GenerateRow`. Each
  method's postcondition ties the new state to the functions above.

The world is a multiset of blocks, because the scene may hold two meshes at
the same place with the same texture. Generated blocks sit at integer
positions. A placed block keeps the player's x and z, which are JavaScript
numbers, so block x and z are `real`. Block y is always an integer layer.

## Model

| member | source | states |
|---|---|---|
| `BlockTypes.GetBlockType` | script.js:112-116 | the type is dirt exactly at layer 0, grass exactly at layer 1 and stone at every other layer: a total function whose three cases partition the layers |
| `BlockTypes.GetBlockTexture` | script.js:42-46 | the texture of a generated block at layer y is always the texture of the slot of `GetBlockType(y)`, so texture and height-derived type agree |
| `BlockTypes.Parse` | script.js:86 | a slot name is recognised exactly when it is "grass", "dirt" or "stone", and a recognised slot's name is the key that was looked up |
| `BlockTypes.ParseName` | script.js:33-37 | every slot is found under its own name (its key in the inventory table) |
| `Terrain.ChunkOfSpan` | script.js:64-65 | the player's chunk coordinate c is the one whose span [16c, 16c+16) contains the position |
| `Terrain.ColumnMultiplicity` | script.js:49-60 | chunk generation at (x, z) emits each block at most once, and emits exactly the blocks at column (x, z) on layers 0 <= y < 10 with y <= h, each with its layer's texture |
| `Terrain.ColumnSize` | script.js:51-53 | a column holds min(max(h+1, 0), 10) blocks, and none when h < 0 |
| `Terrain.ChunkColumnInChunk` | script.js:70 | every block generated for chunk k, at origin (16k.x, 16k.z), lies inside chunk k |
| `Terrain.NeighbourhoodMembers` | script.js:66-67 | the walk visits nine keys: exactly the chunks at most one step from the player's chunk on each axis |
| `Terrain.GenerateAllEffect` | script.js:68-72 | visiting a key sequence marks exactly its keys, and adds exactly the columns of the visited keys that were unmarked before, each once; nothing else is added |
| `Terrain.GenerateAllIdle` | script.js:69 | visiting only keys that are already marked changes neither blocks nor marks |
| `Terrain.GenerateEffect` | script.js:63-75 | after generation around (px, pz), the nine neighbourhood keys are marked and no other key is newly marked; the added blocks are exactly the columns of the neighbourhood chunks that were unmarked before |
| `Terrain.GenerateIdempotent` | script.js:68-72 | generating twice around the same position leaves the world as after the first time: the second call adds no block and no key |
| `Edits.Initial` | script.js:32-39 | the inventory starts with a slot per type, every count zero, grass selected |
| `Edits.Collect` | script.js:85-90 | collecting a recognised name raises that slot by exactly one and no other slot; an unrecognised name changes nothing; the selection never changes |
| `Edits.PlacedBlock` | script.js:123-126 | a placed block has the player's x and z, the selected slot's texture, and the integer layer y with y <= py < y + 1 (ground-snapped) |
| `Edits.Place` | script.js:119-131 | placing keeps every slot present, the selection and the chunk table unchanged |
| `Edits.Break` | script.js:94-109 | breaking keeps every slot present, the selection and the chunk table unchanged |
| `Edits.PlaceEffect` | script.js:119-131 | with a positive selected count, placing lowers that count by exactly one, leaves other slots alone and adds exactly one block at the ground-snapped player position; otherwise nothing changes |
| `Edits.BreakEffect` | script.js:102-107 | a break step that picks block b credits `GetBlockType(b.y)` by one whatever b's texture, leaves other slots alone and removes exactly one copy of b and nothing else; without breaking or without a pick nothing changes |
| `Edits.PlaceConserves` | script.js:119-131 | placing keeps blocks-in-world plus blocks-held constant |
| `Edits.BreakConserves` | script.js:102-107 | breaking a block that is in the world keeps blocks-in-world plus blocks-held constant |
| `Edits.Apply` | script.js:145-148 | one step (generate, collect, place or break) keeps every slot present |
| `Edits.Run` | script.js:145-155 | any sequence of steps keeps every slot present |
| `Edits.ApplyKeepsNonNegative` | script.js:85-131 | no single collect, place, break or generate step makes a count negative |
| `Edits.RunKeepsNonNegative` | script.js:85-131 | all counts stay non-negative across any sequence of collect, place, break and generate steps |
| `Edits.CollectRepeated` | script.js:85-90 | collecting a slot's name n times raises that slot by exactly n, leaves the other slots and the world alone |
| `Sandbox.World.constructor` | script.js:29 | the world starts with no blocks and no generated chunks |
| `Sandbox.World.CreateChunk` | script.js:49-60 | the layer loop adds exactly the column for the height sampled at (x, z) and leaves the chunk table alone |
| `Sandbox.World.GenerateRow` | script.js:67-73 | the inner loop over z leaves the world equal to visiting the row's keys in increasing z, generating each unmarked one |
| `Sandbox.World.GenerateChunks` | script.js:63-75 | the nested loops leave the world equal to `Generate` applied to the old world, so `GenerateEffect` and `GenerateIdempotent` hold of it |
| `Sandbox.Inventory.constructor` | script.js:32-39 | the inventory starts as `Initial()` and satisfies its invariant |
| `Sandbox.Inventory.CollectBlock` | script.js:85-90 | keeps the invariant (every slot present, every count non-negative) and leaves the inventory equal to `Collect` of the old one |
| `Sandbox.PlaceBlock` | script.js:119-131 | keeps the inventory invariant and leaves inventory and world equal to `Place` of the old ones |
| `Sandbox.CheckBlockBreaking` | script.js:94-109 | keeps the inventory invariant and leaves inventory and world equal to `Break` of the old ones, crediting through `CollectBlock` with the name of the layer-derived type |

## Left out

- Rendering: the scene, camera, renderer, lighting, meshes and the per-frame render call are calls into a 3D library. The world's block multiset stands for the block meshes in the scene.
- Texture loading is asset I/O. Textures are three tags, and each slot's texture is the tag of its type.
- The noise function and its floating-point scaling are foreign code. The height is an abstract `(int, int) -> int` sampled at the chunk origin. Its real range (about -10 to 10) is not assumed.
- Ray picking is foreign code. A break step takes the pick result as an `Option<Block>` parameter. The source's raycast runs over all scene children, and the player's own cube is one of them. The model's pick ranges over blocks only.
- The inventory display, the keyboard and mouse listeners and the animation loop are UI plumbing. The `breaking` flag is a parameter of the break step, and `Run` over an arbitrary event sequence stands in for any order of frames and key presses.
- There is no operation to change the selected slot, because the source has none. The selection stays grass.
- JavaScript numbers are doubles. Counts are modelled as unbounded integers and positions as exact reals. This differs only beyond 2^53 or when rounding matters.
- Chunk keys are the string `"x,z"` in the source. Here they are the pair `(x, z)`, which is the same thing for integers.
- In the source, a name such as "constructor" finds an inherited property of the slot table. Collecting it then writes to that inherited object rather than to a slot. The model treats every name other than the three slot names as unrecognised. Both leave the three counts unchanged.
- Terrain has one column per chunk, because the height is sampled once per chunk at its origin. Per-column variation over the chunk's 16x16 footprint is not modelled, since the source does not do it.
