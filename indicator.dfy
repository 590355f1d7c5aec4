/**
 * The mod's entry class: the per-block enable table read from the
 * configuration, the colour getters, and the end-of-tick refresh queue that
 * re-derives the flags of already loaded chunks a few chunks at a time.
 */
module Indicator {
  import opened Types

  /** The configuration record; load/save of the JSON file is not modelled. */
  datatype Config = Config(
    enabled: bool,
    indicatorColor: bv32,
    fuelColor: bv32,
    hopperEnabled: bool,
    dispenserEnabled: bool,
    dropperEnabled: bool,
    barrelEnabled: bool,
    crafterEnabled: bool,
    furnaceEnabled: bool,
    blastFurnaceEnabled: bool,
    smokerEnabled: bool,
    decoratedPotEnabled: bool,
    chestEnabled: bool,
    trappedChestEnabled: bool,
    copperChestEnabled: bool)

  /** The field initialisers of the configuration class. */
  const DefaultConfig := Config(true, 0x6FA9B4, 0xCF8261,
    true, true, true, true, true, true, true, true, true, true, true, true)

  /** Whether the indicator is shown for a block: off everywhere when the
      global switch is off; otherwise the block's own switch, and on for
      every block without one. */
  function IsBlockEnabled(cfg: Config, b: Block): (r: bool)
    ensures !cfg.enabled ==> !r
    ensures b.OtherBlock? ==> r == cfg.enabled
  {
    if !cfg.enabled then false
    else match b
      case Hopper => cfg.hopperEnabled
      case Dispenser => cfg.dispenserEnabled
      case Dropper => cfg.dropperEnabled
      case Barrel => cfg.barrelEnabled
      case Crafter => cfg.crafterEnabled
      case Furnace => cfg.furnaceEnabled
      case BlastFurnace => cfg.blastFurnaceEnabled
      case Smoker => cfg.smokerEnabled
      case DecoratedPot => cfg.decoratedPotEnabled
      case Chest => cfg.chestEnabled
      case TrappedChest => cfg.trappedChestEnabled
      case CopperChest(_, _) => cfg.copperChestEnabled
      case OtherBlock(_, _) => true
  }

  /** The per-kind switches of the configuration. */
  datatype Switch =
    | HopperSwitch | DispenserSwitch | DropperSwitch | BarrelSwitch | CrafterSwitch
    | FurnaceSwitch | BlastFurnaceSwitch | SmokerSwitch | PotSwitch
    | ChestSwitch | TrappedChestSwitch | CopperChestSwitch

  /** Reads one switch. */
  function SwitchValue(cfg: Config, s: Switch): bool
  {
    match s
    case HopperSwitch => cfg.hopperEnabled
    case DispenserSwitch => cfg.dispenserEnabled
    case DropperSwitch => cfg.dropperEnabled
    case BarrelSwitch => cfg.barrelEnabled
    case CrafterSwitch => cfg.crafterEnabled
    case FurnaceSwitch => cfg.furnaceEnabled
    case BlastFurnaceSwitch => cfg.blastFurnaceEnabled
    case SmokerSwitch => cfg.smokerEnabled
    case PotSwitch => cfg.decoratedPotEnabled
    case ChestSwitch => cfg.chestEnabled
    case TrappedChestSwitch => cfg.trappedChestEnabled
    case CopperChestSwitch => cfg.copperChestEnabled
  }

  /** Which switch governs a block: each named block its own, all eight
      copper chest variants the copper one, other blocks none. */
  function SwitchOf(b: Block): Option<Switch>
  {
    match b
    case Hopper => Some(HopperSwitch)
    case Dispenser => Some(DispenserSwitch)
    case Dropper => Some(DropperSwitch)
    case Barrel => Some(BarrelSwitch)
    case Crafter => Some(CrafterSwitch)
    case Furnace => Some(FurnaceSwitch)
    case BlastFurnace => Some(BlastFurnaceSwitch)
    case Smoker => Some(SmokerSwitch)
    case DecoratedPot => Some(PotSwitch)
    case Chest => Some(ChestSwitch)
    case TrappedChest => Some(TrappedChestSwitch)
    case CopperChest(_, _) => Some(CopperChestSwitch)
    case OtherBlock(_, _) => None
  }

  /** The enable table is the global switch and the block's own switch. */
  lemma EnabledIsGlobalAndOwnSwitch(cfg: Config, b: Block)
    ensures IsBlockEnabled(cfg, b) ==
            (cfg.enabled && (SwitchOf(b).None? || SwitchValue(cfg, SwitchOf(b).value)))
  {
    match b
    case OtherBlock(_, _) =>
    case CopperChest(_, _) =>
    case _ =>
  }

  /** Two configurations that agree on the global switch and on a block's own
      switch agree on that block, whatever the other switches say. */
  lemma OnlyOwnSwitchMatters(c1: Config, c2: Config, b: Block)
    requires c1.enabled == c2.enabled
    requires SwitchOf(b).Some? ==> SwitchValue(c1, SwitchOf(b).value) == SwitchValue(c2, SwitchOf(b).value)
    ensures IsBlockEnabled(c1, b) == IsBlockEnabled(c2, b)
  {
    EnabledIsGlobalAndOwnSwitch(c1, b);
    EnabledIsGlobalAndOwnSwitch(c2, b);
  }

  /** Every copper chest, waxed or not, at every weathering stage, follows the copper switch. */
  lemma CopperChestsShareSwitch(cfg: Config, stage: Oxidation, waxed: bool)
    ensures IsBlockEnabled(cfg, CopperChest(stage, waxed)) == (cfg.enabled && cfg.copperChestEnabled)
  {
  }

  /** With the default configuration every block shows its indicator. */
  lemma DefaultsEnableEverything(b: Block)
    ensures IsBlockEnabled(DefaultConfig, b)
  {
  }

  lemma MaskIsMod(bits: bv32) ensures bits & 0xFF_FFFF == bits % 0x100_0000 {}
  lemma MaskKeepsSmall(bits: bv32) ensures bits <= 0xFF_FFFF ==> bits & 0xFF_FFFF == bits {}
  lemma MaskBound(bits: bv32) ensures bits & 0xFF_FFFF <= 0xFF_FFFF {}
  lemma SmallToInt(m: bv32) requires m <= 0xFF_FFFF ensures m as int <= 0xFF_FFFF && (m as int) as bv32 == m {}

  /** `value & 0x00FFFFFF` on the bit pattern of a Java int: its low 24 bits,
      a value unchanged when it already is an RGB colour. */
  function Low24(bits: bv32): (r: int)
    ensures 0 <= r <= 0xFF_FFFF
    ensures r as bv32 == bits % 0x100_0000
    ensures bits <= 0xFF_FFFF ==> r == bits as int
  {
    var m := bits & 0xFF_FFFF;
    MaskIsMod(bits); MaskKeepsSmall(bits); MaskBound(bits); SmallToInt(m);
    m as int
  }

  function IndicatorColor(cfg: Config): (r: int)
    ensures 0 <= r <= 0xFF_FFFF
    ensures cfg.indicatorColor <= 0xFF_FFFF ==> r == cfg.indicatorColor as int
  {
    Low24(cfg.indicatorColor)
  }

  function FuelColor(cfg: Config): (r: int)
    ensures 0 <= r <= 0xFF_FFFF
    ensures cfg.fuelColor <= 0xFF_FFFF ==> r == cfg.fuelColor as int
  {
    Low24(cfg.fuelColor)
  }

  /** A loaded chunk, by identity. */
  type Chunk = nat

  /** Chunks refreshed per server tick. */
  const ChunksPerTick := 10

  /** The scheduler's state: the FIFO of chunks still to refresh, whether the
      queue was ever filled, and (for the model) the chunks already handed to
      the per-chunk refresh, in order. */
  datatype Schedule = Schedule(pending: seq<Chunk>, refreshQueued: bool, refreshed: seq<Chunk>)

  function Min(a: int, b: int): int { if a <= b then a else b }

  /** One end-of-tick step, given the chunks the server reports as loaded. */
  function Tick(s: Schedule, loaded: seq<Chunk>): (r: Schedule)
    ensures r.refreshQueued
    ensures s.refreshQueued && s.pending != [] ==> |r.pending| < |s.pending|
    ensures r.refreshed + r.pending == s.refreshed + s.pending + (if s.refreshQueued then [] else loaded)
    ensures s.refreshed <= r.refreshed
    ensures |r.refreshed| == |s.refreshed|
              + Min(ChunksPerTick, |s.pending| + (if s.refreshQueued then 0 else |loaded|))
  {
    var q := if s.refreshQueued then s.pending else s.pending + loaded;
    var n := Min(ChunksPerTick, |q|);
    Schedule(q[n..], true, s.refreshed + q[..n])
  }

  /** Once the queue has been filled, what the server reports as loaded no longer matters. */
  lemma TickIgnoresLoadedOnceQueued(s: Schedule, loaded: seq<Chunk>)
    requires s.refreshQueued
    ensures Tick(s, loaded) == Tick(s, [])
  {
  }

  /** The first tick appends the loaded chunks to the queue and then polls
      like any later tick. */
  lemma FirstTickFillsThenDrains(s: Schedule, loaded: seq<Chunk>)
    requires !s.refreshQueued
    ensures Tick(s, loaded) == Tick(s.(pending := s.pending + loaded, refreshQueued := true), [])
  {
  }

  /** k further ticks. */
  function Ticks(s: Schedule, k: nat): Schedule
    decreases k
  {
    if k == 0 then s else Ticks(Tick(s, []), k - 1)
  }

  /** Once the queue has been filled, k ticks hand the next min(10k, |queue|)
      chunks to the refresh, in queue order, and keep the rest queued. */
  lemma {:induction false} TicksDrainInOrder(s: Schedule, k: nat)
    requires s.refreshQueued
    ensures var n := Min(ChunksPerTick * k, |s.pending|);
            Ticks(s, k) == Schedule(s.pending[n..], true, s.refreshed + s.pending[..n])
    decreases k
  {
    if k > 0 {
      var p := s.pending;
      var t := Tick(s, []);
      var m := Min(ChunksPerTick, |p|);
      assert t == Schedule(p[m..], true, s.refreshed + p[..m]);
      TicksDrainInOrder(t, k - 1);
      var n' := Min(ChunksPerTick * (k - 1), |p| - m);
      BatchesAdd(k, |p|);
      SlicesJoin(p, m, n');
    }
  }

  /** One batch of ten followed by k - 1 more batches is k batches. */
  lemma BatchesAdd(k: nat, len: nat)
    requires k > 0
    ensures Min(ChunksPerTick, len) + Min(ChunksPerTick * (k - 1), len - Min(ChunksPerTick, len))
            == Min(ChunksPerTick * k, len)
  {
  }

  lemma SlicesJoin(p: seq<Chunk>, m: nat, n: nat)
    requires m + n <= |p|
    ensures p[m..][n..] == p[m + n..]
    ensures p[..m] + p[m..][..n] == p[..m + n]
  {
  }

  /** From the first tick on: k ticks, the first one filling the queue with
      the loaded chunks, hand the first min(10k, |queue|) queued chunks to
      the refresh in order. */
  lemma FirstTicksDrainInOrder(s: Schedule, loaded: seq<Chunk>, k: nat)
    requires !s.refreshQueued && k >= 1
    ensures var q := s.pending + loaded;
            var n := Min(ChunksPerTick * k, |q|);
            Ticks(Tick(s, loaded), k - 1) == Schedule(q[n..], true, s.refreshed + q[..n])
  {
    var filled := s.(pending := s.pending + loaded, refreshQueued := true);
    FirstTickFillsThenDrains(s, loaded);
    TicksDrainInOrder(filled, k);
  }

  /** After the mod loads, ceil(|loaded| / 10) ticks (at least one) refresh
      every chunk loaded at the first tick exactly once, in order. */
  lemma StartupRefreshesEveryLoadedChunk(loaded: seq<Chunk>, k: nat)
    requires k >= 1 && ChunksPerTick * k >= |loaded|
    ensures var r := Ticks(Tick(Schedule([], false, []), loaded), k - 1);
            r.pending == [] && r.refreshed == loaded
  {
    FirstTicksDrainInOrder(Schedule([], false, []), loaded, k);
    assert [] + loaded == loaded;
  }

  /** The whole queue is drained after ceil(|queue| / 10) ticks. */
  lemma QueueEmptiesAfterEnoughTicks(s: Schedule, k: nat)
    requires s.refreshQueued
    requires ChunksPerTick * k >= |s.pending|
    ensures Ticks(s, k).pending == []
    ensures Ticks(s, k).refreshed == s.refreshed + s.pending
  {
    TicksDrainInOrder(s, k);
  }

  /** The scheduler object: the static queue and flag of the entry class. */
  class RefreshScheduler {
    var pending: seq<Chunk>
    var refreshQueued: bool
    var refreshed: seq<Chunk>

    function State(): Schedule
      reads this
    {
      Schedule(pending, refreshQueued, refreshed)
    }

    constructor ()
      ensures State() == Schedule([], false, [])
    {
      pending, refreshQueued, refreshed := [], false, [];
    }

    /** End-of-tick handler: fill the queue on the first tick only, then poll
        at most ChunksPerTick chunks and refresh each. */
    method ProcessRefreshQueue(loaded: seq<Chunk>)
      modifies this
      ensures State() == Tick(old(State()), loaded)
    {
      if !refreshQueued {
        refreshQueued := true;
        pending := pending + loaded;
      }
      ghost var q := pending;
      ghost var start := refreshed;
      var i := 0;
      while i < ChunksPerTick && pending != []
        invariant 0 <= i <= ChunksPerTick
        invariant refreshQueued
        invariant i <= |q|
        invariant pending == q[i..] && refreshed == start + q[..i]
        invariant pending != [] ==> i < |q|
        decreases ChunksPerTick - i
      {
        var c := pending[0];
        pending := pending[1..];
        RefreshChunk(c);
        assert q[..i + 1] == q[..i] + [c];
        i := i + 1;
      }
      assert q == if old(refreshQueued) then old(pending) else old(pending) + loaded;
      assert i == Min(ChunksPerTick, |q|);
    }

    /** The per-chunk refresh, recorded as an abstract action. */
    method RefreshChunk(c: Chunk)
      modifies this
      ensures refreshed == old(refreshed) + [c]
      ensures pending == old(pending) && refreshQueued == old(refreshQueued)
    {
      refreshed := refreshed + [c];
    }
  }
}
