/**
 * Host types the indicator code works with: block positions, the six cube
 * directions, the blocks it knows by name, and block states carrying the
 * properties the indicator adds (has_items, has_input, has_fuel) next to the
 * vanilla chest properties (type, facing).
 */
module Types {

  datatype Option<+T> = None | Some(value: T)

  /** The six cube directions, in the host's declaration order. */
  datatype Direction = Down | Up | North | South | West | East {
    predicate IsHorizontal() { !Down? && !Up? }
  }

  const AllDirections: seq<Direction> := [Down, Up, North, South, West, East]

  lemma AllDirectionsComplete(d: Direction)
    ensures d in AllDirections
  {
  }

  /** Turning a horizontal direction a quarter clockwise, seen from above. */
  function ClockWise(d: Direction): (r: Direction)
    requires d.IsHorizontal()
    ensures r.IsHorizontal() && r != d
  {
    match d
    case North => East
    case East => South
    case South => West
    case West => North
  }

  /** Turning a horizontal direction a quarter counter-clockwise. */
  function CounterClockWise(d: Direction): (r: Direction)
    requires d.IsHorizontal()
    ensures r.IsHorizontal() && ClockWise(r) == d
  {
    match d
    case North => West
    case East => North
    case South => East
    case West => South
  }

  lemma ClockWiseUndoesCounterClockWise(d: Direction)
    requires d.IsHorizontal()
    ensures CounterClockWise(ClockWise(d)) == d
  {
  }

  /** Unit offset of a direction: x grows east, y up, z south. */
  function StepX(d: Direction): int { match d case East => 1 case West => -1 case _ => 0 }
  function StepY(d: Direction): int { match d case Up => 1 case Down => -1 case _ => 0 }
  function StepZ(d: Direction): int { match d case South => 1 case North => -1 case _ => 0 }

  function Opposite(d: Direction): (r: Direction)
    ensures StepX(r) == -StepX(d) && StepY(r) == -StepY(d) && StepZ(r) == -StepZ(d)
  {
    match d
    case Down => Up
    case Up => Down
    case North => South
    case South => North
    case West => East
    case East => West
  }

  datatype Pos = Pos(x: int, y: int, z: int)

  /** The neighbouring position one step in direction d. */
  function Relative(p: Pos, d: Direction): (r: Pos)
    ensures r != p
  {
    Pos(p.x + StepX(d), p.y + StepY(d), p.z + StepZ(d))
  }

  /** Stepping back the opposite way returns to the start. */
  lemma RelativeOppositeReturns(p: Pos, d: Direction)
    ensures Relative(Relative(p, d), Opposite(d)) == p
  {
  }

  /** A quarter turn counter-clockwise from d's clockwise neighbour is the way back. */
  lemma CounterClockWiseOfClockWiseIsOpposite(d: Direction)
    requires d.IsHorizontal()
    ensures CounterClockWise(d) == Opposite(ClockWise(d))
  {
  }

  /** Copper chest weathering stages. */
  datatype Oxidation = Unaffected | Exposed | Weathered | Oxidized

  /** The blocks the indicator code compares against by identity. Every other
      block (vanilla or from another mod, and air) is OtherBlock; its family
      records which container block class it extends, if any, so that a
      mod's subclass of a barrel, furnace or chest block is still one. */
  datatype Block =
    | Hopper | Dispenser | Dropper | Barrel | Crafter
    | Furnace | BlastFurnace | Smoker
    | DecoratedPot
    | Chest | TrappedChest
    | CopperChest(stage: Oxidation, waxed: bool)
    | OtherBlock(id: nat, family: Family)

  /** The block classes the client-side model code tests with instanceof:
      a dropper is a dispenser block, trapped and copper chests are chest
      blocks, and a block from another mod belongs to the class it extends. */
  datatype Family = SimpleContainer | PotFamily | FurnaceFamily | ChestFamily | NoFamily

  function FamilyOf(b: Block): Family
  {
    match b
    case Hopper | Dispenser | Dropper | Barrel | Crafter => SimpleContainer
    case DecoratedPot => PotFamily
    case Furnace | BlastFurnace | Smoker => FurnaceFamily
    case Chest | TrappedChest | CopperChest(_, _) => ChestFamily
    case OtherBlock(_, family) => family
  }

  datatype ChestType = Single | Left | Right

  /** The vanilla chest properties: which half of a double chest, and facing. */
  datatype ChestProps = ChestProps(chestType: ChestType, facing: Direction)

  /** A block state. A property the block does not carry is None. */
  datatype BlockState = BlockState(
    block: Block,
    hasItems: Option<bool>,
    hasInput: Option<bool>,
    hasFuel: Option<bool>,
    chest: Option<ChestProps>)

  /** What a position with no stored state reads as. */
  const Air := BlockState(OtherBlock(0, NoFamily), None, None, None, None)

  /** The properties each block family carries: the block-definition hooks add
      has_items to simple containers, pots and chests and has_input/has_fuel to
      furnaces; chests always carry a horizontal facing. */
  predicate WellFormed(s: BlockState)
  {
    && (s.chest.Some? ==> s.chest.value.facing.IsHorizontal())
    && match FamilyOf(s.block)
       case SimpleContainer | PotFamily => s.hasItems.Some?
       case FurnaceFamily => s.hasInput.Some? && s.hasFuel.Some?
       case ChestFamily => s.hasItems.Some? && s.chest.Some?
       case NoFamily => true
  }

  /** Identity of the single overlay texture sprite (its atlas rectangle is the host's). */
  datatype Sprite = Sprite(id: nat)
}
