/**
 * The inventory and the block edits as values: collecting into a slot,
 * placing the selected block at the player, breaking a picked block, and any
 * sequence of these together with chunk generation.
 */
module Edits {
  import opened Wrappers
  import opened BlockTypes
  import opened Terrain

  /** The inventory: a count per block type and the selected type. */
  datatype Inv = Inv(counts: map<BlockType, int>, selected: BlockType)

  /** The inventory has a slot for every block type. */
  predicate HasSlots(i: Inv)
  {
    forall t: BlockType :: t in i.counts
  }

  /** No slot holds a negative count. */
  predicate NonNegative(i: Inv)
  {
    forall t :: t in i.counts ==> i.counts[t] >= 0
  }

  lemma EmptySlots()
    ensures forall t: BlockType :: t in map[Grass := 0, Dirt := 0, Stone := 0]
  {
    forall t: BlockType
      ensures t in map[Grass := 0, Dirt := 0, Stone := 0]
    {
      match t
      case Grass =>
      case Dirt =>
      case Stone =>
    }
  }

  /** The inventory at start-up: every slot empty, grass selected. */
  function Initial(): (i: Inv)
    ensures HasSlots(i) && NonNegative(i)
    ensures forall t :: t in i.counts ==> i.counts[t] == 0
    ensures i.selected == Grass
  {
    EmptySlots();
    Inv(map[Grass := 0, Dirt := 0, Stone := 0], Grass)
  }

  /** The number of blocks held, over all slots. */
  function Total(i: Inv): int
    requires HasSlots(i)
  {
    i.counts[Grass] + i.counts[Dirt] + i.counts[Stone]
  }

  /**
   * Collecting a block under a slot name: a recognised name raises its own
   * slot by exactly one and no other slot; any other name changes nothing.
   * The selection never changes.
   */
  function Collect(i: Inv, name: string): (r: Inv)
    requires HasSlots(i)
    ensures HasSlots(r) && r.selected == i.selected
    ensures Parse(name).None? ==> r == i
    ensures forall t :: r.counts[t] == i.counts[t] + (if Parse(name) == Some(t) then 1 else 0)
  {
    match Parse(name)
    case Some(t) => i.(counts := i.counts[t := i.counts[t] + 1])
    case None => i
  }

  /** The inventory together with the world it edits. */
  datatype Game = Game(inv: Inv, world: WorldState)

  /** The block placed from slot t by a player at (px, py, pz): snapped down to the layer below py. */
  function PlacedBlock(t: BlockType, px: real, py: real, pz: real): (b: Block)
    ensures b.x == px && b.z == pz && b.texture == TextureOf(t)
    ensures b.y as real <= py < b.y as real + 1.0
  {
    Block(px, py.Floor, pz, TextureOf(t))
  }

  /** Placing a block of the selected type at the player's position. */
  function Place(g: Game, px: real, py: real, pz: real): (r: Game)
    requires HasSlots(g.inv)
    ensures HasSlots(r.inv) && r.inv.selected == g.inv.selected && r.world.chunks == g.world.chunks
  {
    var t := g.inv.selected;
    if g.inv.counts[t] > 0 then
      Game(g.inv.(counts := g.inv.counts[t := g.inv.counts[t] - 1]),
           g.world.(blocks := g.world.blocks + multiset{PlacedBlock(t, px, py, pz)}))
    else g
  }

  /**
   * One break step: while breaking and a block is picked, the block's slot
   * is credited by name through Collect, and the block leaves the world.
   */
  function Break(g: Game, breaking: bool, hit: Option<Block>): (r: Game)
    requires HasSlots(g.inv)
    ensures HasSlots(r.inv) && r.inv.selected == g.inv.selected && r.world.chunks == g.world.chunks
  {
    if breaking && hit.Some? then
      var b := hit.value;
      Game(Collect(g.inv, Name(GetBlockType(b.y))), g.world.(blocks := g.world.blocks - multiset{b}))
    else g
  }

  /**
   * Placing with a positive count in the selected slot lowers that slot by
   * exactly one, leaves the other slots alone, and adds exactly one block: at
   * the player's x and z, on the floor of the player's y, with the selected
   * slot's texture. With an empty selected slot nothing changes at all.
   */
  lemma PlaceEffect(g: Game, px: real, py: real, pz: real)
    requires HasSlots(g.inv)
    ensures var t, r, b := g.inv.selected, Place(g, px, py, pz), PlacedBlock(g.inv.selected, px, py, pz);
      g.inv.counts[t] > 0 ==>
        && r.inv.counts[t] == g.inv.counts[t] - 1
        && (forall u :: u != t ==> r.inv.counts[u] == g.inv.counts[u])
        && r.world.blocks[b] == g.world.blocks[b] + 1
        && (forall c :: c != b ==> r.world.blocks[c] == g.world.blocks[c])
        && |r.world.blocks| == |g.world.blocks| + 1
    ensures g.inv.counts[g.inv.selected] <= 0 ==> Place(g, px, py, pz) == g
  {
  }

  /**
   * A break step that picks block b credits the slot of the type b's layer
   * gives, whatever texture b was placed with, leaves the other slots alone,
   * and removes one copy of b from the world and nothing else. Without
   * breaking or without a pick nothing changes.
   */
  lemma BreakEffect(g: Game, breaking: bool, hit: Option<Block>)
    requires HasSlots(g.inv)
    requires hit.Some? ==> hit.value in g.world.blocks
    ensures !breaking || hit.None? ==> Break(g, breaking, hit) == g
    ensures var r := Break(g, breaking, hit);
      breaking && hit.Some? ==>
        var b := hit.value;
        var t := GetBlockType(b.y);
        && r.inv.counts[t] == g.inv.counts[t] + 1
        && (forall u :: u != t ==> r.inv.counts[u] == g.inv.counts[u])
        && r.world.blocks[b] == g.world.blocks[b] - 1
        && (forall c :: c != b ==> r.world.blocks[c] == g.world.blocks[c])
        && |r.world.blocks| == |g.world.blocks| - 1
  {
    if breaking && hit.Some? {
      ParseName(GetBlockType(hit.value.y));
    }
  }

  /** Blocks in the world plus blocks held: what placing and breaking move between the two. */
  function Items(g: Game): int
    requires HasSlots(g.inv)
  {
    |g.world.blocks| + Total(g.inv)
  }

  /** Placing moves one block from the inventory into the world, or does nothing. */
  lemma PlaceConserves(g: Game, px: real, py: real, pz: real)
    requires HasSlots(g.inv)
    ensures Items(Place(g, px, py, pz)) == Items(g)
  {
    PlaceEffect(g, px, py, pz);
  }

  /** Breaking moves the picked block from the world into the inventory, or does nothing. */
  lemma BreakConserves(g: Game, breaking: bool, hit: Option<Block>)
    requires HasSlots(g.inv)
    requires hit.Some? ==> hit.value in g.world.blocks
    ensures Items(Break(g, breaking, hit)) == Items(g)
  {
    BreakEffect(g, breaking, hit);
  }

  /** What can happen to the inventory and the world, one step at a time. */
  datatype Event =
    | GenerateEvent(px: real, pz: real)
    | CollectEvent(name: string)
    | PlaceEvent(px: real, py: real, pz: real)
    | BreakEvent(breaking: bool, hit: Option<Block>)

  function Apply(g: Game, e: Event, height: (int, int) -> int): (r: Game)
    requires HasSlots(g.inv)
    ensures HasSlots(r.inv)
  {
    match e
    case GenerateEvent(px, pz) => g.(world := Generate(g.world, px, pz, height))
    case CollectEvent(name) => g.(inv := Collect(g.inv, name))
    case PlaceEvent(px, py, pz) => Place(g, px, py, pz)
    case BreakEvent(breaking, hit) => Break(g, breaking, hit)
  }

  function Run(g: Game, es: seq<Event>, height: (int, int) -> int): (r: Game)
    requires HasSlots(g.inv)
    ensures HasSlots(r.inv)
    decreases |es|
  {
    if es == [] then g else Run(Apply(g, es[0], height), es[1..], height)
  }

  /** Every single step keeps every count non-negative. */
  lemma ApplyKeepsNonNegative(g: Game, e: Event, height: (int, int) -> int)
    requires HasSlots(g.inv) && NonNegative(g.inv)
    ensures NonNegative(Apply(g, e, height).inv)
  {
    match e
    case GenerateEvent(_, _) =>
    case CollectEvent(_) =>
    case PlaceEvent(px, py, pz) => PlaceEffect(g, px, py, pz);
    case BreakEvent(breaking, hit) =>
  }

  /** All counts stay non-negative across any sequence of steps. */
  lemma {:induction false} RunKeepsNonNegative(g: Game, es: seq<Event>, height: (int, int) -> int)
    requires HasSlots(g.inv) && NonNegative(g.inv)
    ensures NonNegative(Run(g, es, height).inv)
    decreases |es|
  {
    if es != [] {
      ApplyKeepsNonNegative(g, es[0], height);
      RunKeepsNonNegative(Apply(g, es[0], height), es[1..], height);
    }
  }

  /** Collecting a slot's name n times raises that slot by n and no other slot. */
  lemma {:induction false} CollectRepeated(g: Game, t: BlockType, n: nat, height: (int, int) -> int)
    requires HasSlots(g.inv)
    ensures var r := Run(g, seq(n, _ => CollectEvent(Name(t))), height);
      && r.inv.counts[t] == g.inv.counts[t] + n
      && (forall u :: u != t ==> r.inv.counts[u] == g.inv.counts[u])
      && r.world == g.world
    decreases n
  {
    var es := seq(n, _ => CollectEvent(Name(t)));
    if n > 0 {
      ParseName(t);
      var g' := Apply(g, es[0], height);
      assert es[1..] == seq(n - 1, _ => CollectEvent(Name(t)));
      CollectRepeated(g', t, n - 1, height);
    }
  }
}
