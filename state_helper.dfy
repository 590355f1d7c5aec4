/**
 * Server-side synchronisation of the indicator flags with inventory contents.
 *
 * The world is a `World` object holding the block states by position, the
 * block entities (their kind and slot occupancy) and the log of block writes
 * broadcast to clients. Every update is specified by a pure transition on a
 * `Store` (states plus write log); the methods, which scan slots with loops
 * that stop at the first occupied slot, are proved to perform exactly that
 * transition, and the lemmas state what the transitions promise.
 */
module StateHelper {
  import opened Types
  import opened Indicator

  /** Inventory contents as seen by the indicator: slot i is non-empty. */
  predicate Occupied(slots: seq<bool>)
  {
    exists i :: 0 <= i < |slots| && slots[i]
  }

  /** The slot scan with early exit used by every update. */
  method AnyOccupied(slots: seq<bool>) returns (found: bool)
    ensures found <==> Occupied(slots)
  {
    found := false;
    var i := 0;
    while i < |slots|
      invariant 0 <= i <= |slots|
      invariant !found
      invariant forall j :: 0 <= j < i ==> !slots[j]
    {
      if slots[i] {
        found := true;
        break;
      }
      i := i + 1;
    }
  }

  datatype EntityKind = ChestEntity | FurnaceEntity | OtherContainer | NotAContainer

  /** A block entity: what kind it is and the occupancy of its slots. */
  datatype BlockEntity = BlockEntity(kind: EntityKind, slots: seq<bool>)

  /** The block states of a level together with the positions written so far. */
  datatype Store = Store(states: map<Pos, BlockState>, log: seq<Pos>)

  function StateAt(states: map<Pos, BlockState>, p: Pos): BlockState
  {
    if p in states then states[p] else Air
  }

  /** `setBlock` with client updates: store the state and broadcast the write. */
  function Put(w: Store, p: Pos, s: BlockState): Store
  {
    Store(w.states[p := s], w.log + [p])
  }

  /** Two states of the same block with the same properties present. */
  predicate SameShape(s: BlockState, t: BlockState)
  {
    && s.block == t.block && s.chest == t.chest
    && s.hasItems.Some? == t.hasItems.Some?
    && s.hasInput.Some? == t.hasInput.Some?
    && s.hasFuel.Some? == t.hasFuel.Some?
  }

  /** Writes change flag values only: same positions, same blocks, same properties. */
  predicate FlagsOnly(a: map<Pos, BlockState>, b: map<Pos, BlockState>)
  {
    a.Keys == b.Keys && forall p :: p in a ==> SameShape(a[p], b[p])
  }

  predicate ValidStates(states: map<Pos, BlockState>)
  {
    forall p :: p in states ==> WellFormed(states[p])
  }

  lemma FlagsOnlyKeepsValid(a: map<Pos, BlockState>, b: map<Pos, BlockState>)
    requires ValidStates(a) && FlagsOnly(a, b)
    ensures ValidStates(b)
  {
    forall p | p in b ensures WellFormed(b[p]) {
      assert WellFormed(a[p]) && SameShape(a[p], b[p]);
    }
  }

  /** Every chest block entity stands on a chest block. */
  predicate EntitiesMatch(states: map<Pos, BlockState>, entities: map<Pos, BlockEntity>)
  {
    forall p :: p in entities && entities[p].kind.ChestEntity? ==> FamilyOf(StateAt(states, p).block) == ChestFamily
  }

  // ---------------------------------------------------------------------
  // has_items on simple containers and pots (both overloads)
  // ---------------------------------------------------------------------

  /** Stores v as the has_items flag at p when the state there carries the
      property and its value differs; a write is broadcast only then. */
  function SyncHasItems(w: Store, p: Pos, v: bool): (r: Store)
    ensures FlagsOnly(w.states, r.states)
    ensures forall q :: q != p ==> StateAt(r.states, q) == StateAt(w.states, q)
    ensures StateAt(w.states, p).hasItems.None? ==> r == w
    ensures StateAt(w.states, p).hasItems.Some? ==> StateAt(r.states, p) == StateAt(w.states, p).(hasItems := Some(v))
    ensures r.log == w.log + (if StateAt(r.states, p) != StateAt(w.states, p) then [p] else [])
  {
    var st := StateAt(w.states, p);
    if st.hasItems.Some? && st.hasItems.value != v then Put(w, p, st.(hasItems := Some(v))) else w
  }

  /** The recomputed has_items value: false for a disabled block, otherwise
      whether any slot is non-empty. */
  function HasItemsValue(cfg: Config, b: Block, slots: seq<bool>): (r: bool)
    ensures r ==> IsBlockEnabled(cfg, b)
    ensures IsBlockEnabled(cfg, b) ==> (r <==> Occupied(slots))
  {
    IsBlockEnabled(cfg, b) && Occupied(slots)
  }

  /** has_items recomputation at pos: a state without the property is left
      alone; otherwise the flag becomes "enabled and some slot non-empty",
      written (and broadcast) only if it differs from the stored one. */
  function HasItemsUpdate(w: Store, pos: Pos, slots: seq<bool>, cfg: Config): (r: Store)
    ensures FlagsOnly(w.states, r.states)
    ensures forall p :: p != pos ==> StateAt(r.states, p) == StateAt(w.states, p)
    ensures StateAt(w.states, pos).hasItems.None? ==> r == w
    ensures var st := StateAt(w.states, pos);
            st.hasItems.Some? ==> StateAt(r.states, pos) == st.(hasItems := Some(HasItemsValue(cfg, st.block, slots)))
    ensures r.log == w.log + (if StateAt(r.states, pos) != StateAt(w.states, pos) then [pos] else [])
  {
    var st := StateAt(w.states, pos);
    if st.hasItems.None? then w
    else SyncHasItems(w, pos, HasItemsValue(cfg, st.block, slots))
  }

  /** A second recomputation with the same contents writes nothing. */
  lemma HasItemsWritesAtMostOnce(w: Store, pos: Pos, slots: seq<bool>, cfg: Config)
    ensures var r1 := HasItemsUpdate(w, pos, slots, cfg);
            HasItemsUpdate(r1, pos, slots, cfg) == r1 && |r1.log| <= |w.log| + 1
  {
  }

  /** With the block disabled a non-empty inventory still clears the flag. */
  lemma HasItemsDisabledClears(w: Store, pos: Pos, slots: seq<bool>, cfg: Config)
    requires StateAt(w.states, pos).hasItems.Some?
    requires !IsBlockEnabled(cfg, StateAt(w.states, pos).block)
    ensures StateAt(HasItemsUpdate(w, pos, slots, cfg).states, pos).hasItems == Some(false)
  {
  }

  // ---------------------------------------------------------------------
  // Furnaces: has_input is slot 0, has_fuel is slot 1
  // ---------------------------------------------------------------------

  /** has_input: false for a disabled block, otherwise whether slot 0 exists
      and is non-empty; a lit input means the furnace holds something. */
  function InputValue(cfg: Config, b: Block, items: seq<bool>): (r: bool)
    ensures IsBlockEnabled(cfg, b) ==> (r <==> |items| > 0 && items[0])
    ensures !IsBlockEnabled(cfg, b) ==> !r
    ensures r ==> HasItemsValue(cfg, b, items)
  {
    IsBlockEnabled(cfg, b) && |items| > 0 && items[0]
  }

  /** has_fuel: the same for slot 1. */
  function FuelValue(cfg: Config, b: Block, items: seq<bool>): (r: bool)
    ensures IsBlockEnabled(cfg, b) ==> (r <==> |items| > 1 && items[1])
    ensures !IsBlockEnabled(cfg, b) ==> !r
    ensures r ==> HasItemsValue(cfg, b, items)
  {
    IsBlockEnabled(cfg, b) && |items| > 1 && items[1]
  }

  /** Furnace recomputation: a state lacking either property is left alone;
      otherwise both flags are recomputed and one combined write happens
      when either differs. */
  function FurnaceUpdate(w: Store, pos: Pos, items: seq<bool>, cfg: Config): (r: Store)
    ensures FlagsOnly(w.states, r.states)
    ensures forall p :: p != pos ==> StateAt(r.states, p) == StateAt(w.states, p)
    ensures var st := StateAt(w.states, pos);
            st.hasInput.None? || st.hasFuel.None? ==> r == w
    ensures var st := StateAt(w.states, pos);
            st.hasInput.Some? && st.hasFuel.Some? ==>
              StateAt(r.states, pos) == st.(hasInput := Some(InputValue(cfg, st.block, items)),
                                            hasFuel := Some(FuelValue(cfg, st.block, items)))
    ensures r.log == w.log + (if StateAt(r.states, pos) != StateAt(w.states, pos) then [pos] else [])
  {
    var st := StateAt(w.states, pos);
    if st.hasInput.None? || st.hasFuel.None? then w
    else
      var input := InputValue(cfg, st.block, items);
      var fuel := FuelValue(cfg, st.block, items);
      if st.hasInput.value != input || st.hasFuel.value != fuel
      then Put(w, pos, st.(hasInput := Some(input), hasFuel := Some(fuel)))
      else w
  }

  /** Only the first two slots matter to a furnace's indicator. */
  lemma FurnaceIgnoresLaterSlots(w: Store, pos: Pos, a: seq<bool>, b: seq<bool>, cfg: Config)
    requires |a| >= 2 && |b| >= 2 && a[0] == b[0] && a[1] == b[1]
    ensures FurnaceUpdate(w, pos, a, cfg) == FurnaceUpdate(w, pos, b, cfg)
  {
  }

  lemma FurnaceWritesAtMostOnce(w: Store, pos: Pos, items: seq<bool>, cfg: Config)
    ensures var r1 := FurnaceUpdate(w, pos, items, cfg);
            FurnaceUpdate(r1, pos, items, cfg) == r1 && |r1.log| <= |w.log| + 1
  {
  }

  lemma FurnaceDisabledClears(w: Store, pos: Pos, items: seq<bool>, cfg: Config)
    requires StateAt(w.states, pos).hasInput.Some? && StateAt(w.states, pos).hasFuel.Some?
    requires !IsBlockEnabled(cfg, StateAt(w.states, pos).block)
    ensures var s := StateAt(FurnaceUpdate(w, pos, items, cfg).states, pos);
            s.hasInput == Some(false) && s.hasFuel == Some(false)
  {
  }

  // ---------------------------------------------------------------------
  // Chests: both halves of a double chest show the same flag
  // ---------------------------------------------------------------------

  /** Where the other half of a double chest is: clockwise of the facing for
      the left half, counter-clockwise for the right half. */
  function ChestNeighbor(pos: Pos, props: ChestProps): (r: Pos)
    requires props.chestType != Single && props.facing.IsHorizontal()
    ensures r != pos
  {
    Relative(pos, if props.chestType == Left then ClockWise(props.facing) else CounterClockWise(props.facing))
  }

  /** The two halves name each other. */
  lemma ChestNeighborSymmetric(pos: Pos, facing: Direction)
    requires facing.IsHorizontal()
    ensures ChestNeighbor(ChestNeighbor(pos, ChestProps(Left, facing)), ChestProps(Right, facing)) == pos
    ensures ChestNeighbor(ChestNeighbor(pos, ChestProps(Right, facing)), ChestProps(Left, facing)) == pos
  {
    CounterClockWiseOfClockWiseIsOpposite(facing);
    RelativeOppositeReturns(pos, ClockWise(facing));
    ClockWiseUndoesCounterClockWise(facing);
    RelativeOppositeReturns(pos, CounterClockWise(facing));
  }

  /** The neighbour counts only when a chest block entity with a non-empty slot is there. */
  function NeighborOccupied(entities: map<Pos, BlockEntity>, np: Pos): (r: bool)
    ensures r ==> np in entities && entities[np].kind.ChestEntity?
    ensures np in entities && entities[np].kind.ChestEntity? ==> (r <==> Occupied(entities[np].slots))
  {
    np in entities && entities[np].kind.ChestEntity? && Occupied(entities[np].slots)
  }

  /** The state an updating chest entity may stand on: with has_items it has chest properties. */
  predicate ChestReady(states: map<Pos, BlockState>, pos: Pos)
  {
    ValidStates(states) && (StateAt(states, pos).hasItems.Some? ==> StateAt(states, pos).chest.Some?)
  }

  /** This half's occupancy, or the neighbour half's when this is a double
      chest: a single chest behaves as a plain container, a half's own items
      always light it, and a disabled chest is never lit. */
  function ChestUnified(st: BlockState, entities: map<Pos, BlockEntity>, pos: Pos, slots: seq<bool>, cfg: Config): (r: bool)
    requires st.chest.Some? && st.chest.value.facing.IsHorizontal()
    ensures st.chest.value.chestType == Single ==> r == HasItemsValue(cfg, st.block, slots)
    ensures HasItemsValue(cfg, st.block, slots) ==> r
    ensures r ==> IsBlockEnabled(cfg, st.block)
    ensures r && !HasItemsValue(cfg, st.block, slots) ==>
              st.chest.value.chestType != Single && NeighborOccupied(entities, ChestNeighbor(pos, st.chest.value))
  {
    var enabled := IsBlockEnabled(cfg, st.block);
    (enabled && Occupied(slots))
    || (st.chest.value.chestType != Single && enabled && NeighborOccupied(entities, ChestNeighbor(pos, st.chest.value)))
  }

  /** Chest recomputation: this half gets the unified value (written if it
      differs), then a double chest's neighbour half, if it carries
      has_items, gets the same value (written if it differs). */
  function ChestUpdate(w: Store, entities: map<Pos, BlockEntity>, pos: Pos, slots: seq<bool>, cfg: Config): (r: Store)
    requires ChestReady(w.states, pos)
    ensures FlagsOnly(w.states, r.states)
    ensures StateAt(w.states, pos).hasItems.None? ==> r == w
  {
    var st := StateAt(w.states, pos);
    if st.hasItems.None? then w
    else
      assert pos in w.states;
      var props := st.chest.value;
      var unified := ChestUnified(st, entities, pos, slots, cfg);
      var w1 := SyncHasItems(w, pos, unified);
      if props.chestType == Single then w1
      else SyncHasItems(w1, ChestNeighbor(pos, props), unified)
  }

  /** After a chest update this half holds the unified value, and so does the
      other half of a double chest when its state carries has_items: the two
      halves agree. */
  lemma ChestHalvesAgree(w: Store, entities: map<Pos, BlockEntity>, pos: Pos, slots: seq<bool>, cfg: Config)
    requires ChestReady(w.states, pos)
    requires StateAt(w.states, pos).hasItems.Some?
    ensures var st := StateAt(w.states, pos);
            var u := ChestUnified(st, entities, pos, slots, cfg);
            var r := ChestUpdate(w, entities, pos, slots, cfg);
            && StateAt(r.states, pos) == st.(hasItems := Some(u))
            && (st.chest.value.chestType != Single ==>
                  var np := ChestNeighbor(pos, st.chest.value);
                  StateAt(w.states, np).hasItems.Some? ==>
                    StateAt(r.states, np) == StateAt(w.states, np).(hasItems := Some(u)))
  {
  }

  /** A chest update changes no position other than this one and, for a
      double chest, the neighbour position, and that one only when its state
      carries has_items. */
  lemma ChestFrame(w: Store, entities: map<Pos, BlockEntity>, pos: Pos, slots: seq<bool>, cfg: Config, p: Pos)
    requires ChestReady(w.states, pos)
    requires p != pos
    requires var st := StateAt(w.states, pos);
             st.hasItems.Some? && st.chest.value.chestType != Single ==>
               p != ChestNeighbor(pos, st.chest.value) || StateAt(w.states, p).hasItems.None?
    ensures StateAt(ChestUpdate(w, entities, pos, slots, cfg).states, p) == StateAt(w.states, p)
  {
  }

  /** A chest update broadcasts exactly the halves whose state it changes:
      this position first, then, for a double chest, the neighbour position. */
  lemma ChestWrites(w: Store, entities: map<Pos, BlockEntity>, pos: Pos, slots: seq<bool>, cfg: Config)
    requires ChestReady(w.states, pos)
    ensures var st := StateAt(w.states, pos);
            var r := ChestUpdate(w, entities, pos, slots, cfg);
            var linked := st.hasItems.Some? && st.chest.value.chestType != Single;
            && |r.log| <= |w.log| + 2
            && r.log == w.log
                 + (if StateAt(r.states, pos) != StateAt(w.states, pos) then [pos] else [])
                 + (if linked && StateAt(r.states, ChestNeighbor(pos, st.chest.value))
                                 != StateAt(w.states, ChestNeighbor(pos, st.chest.value))
                    then [ChestNeighbor(pos, st.chest.value)] else [])
  {
    var st := StateAt(w.states, pos);
    var r := ChestUpdate(w, entities, pos, slots, cfg);
    if st.hasItems.Some? {
      var u := ChestUnified(st, entities, pos, slots, cfg);
      var w1 := SyncHasItems(w, pos, u);
      var e1: seq<Pos> := if StateAt(w1.states, pos) != StateAt(w.states, pos) then [pos] else [];
      var extra := e1;
      if st.chest.value.chestType != Single {
        var np := ChestNeighbor(pos, st.chest.value);
        var e2: seq<Pos> := if StateAt(r.states, np) != StateAt(w1.states, np) then [np] else [];
        assert StateAt(r.states, pos) == StateAt(w1.states, pos);
        assert StateAt(w1.states, np) == StateAt(w.states, np);
        extra := e1 + e2;
      }
      assert r.log == w.log + extra;
    }
  }

  /** A second chest update with unchanged contents writes nothing. */
  lemma ChestWritesOnlyOnChange(w: Store, entities: map<Pos, BlockEntity>, pos: Pos, slots: seq<bool>, cfg: Config)
    requires ChestReady(w.states, pos)
    ensures var r1 := ChestUpdate(w, entities, pos, slots, cfg);
            ChestReady(r1.states, pos) && ChestUpdate(r1, entities, pos, slots, cfg) == r1
  {
    var r1 := ChestUpdate(w, entities, pos, slots, cfg);
    FlagsOnlyKeepsValid(w.states, r1.states);
    var st := StateAt(w.states, pos);
    if st.hasItems.Some? {
      ChestHalvesAgree(w, entities, pos, slots, cfg);
      assert SameShape(st, StateAt(r1.states, pos));
    }
  }

  /** With the block disabled, both halves of a chest are cleared. */
  lemma ChestDisabledClears(w: Store, entities: map<Pos, BlockEntity>, pos: Pos, slots: seq<bool>, cfg: Config)
    requires ChestReady(w.states, pos)
    requires StateAt(w.states, pos).hasItems.Some?
    requires !IsBlockEnabled(cfg, StateAt(w.states, pos).block)
    ensures var st := StateAt(w.states, pos);
            var r := ChestUpdate(w, entities, pos, slots, cfg);
            && StateAt(r.states, pos).hasItems == Some(false)
            && (st.chest.value.chestType != Single ==>
                  var np := ChestNeighbor(pos, st.chest.value);
                  StateAt(w.states, np).hasItems.Some? ==> StateAt(r.states, np).hasItems == Some(false))
  {
    ChestHalvesAgree(w, entities, pos, slots, cfg);
  }

  /** Updating either half of a double chest computes the same unified
      value: the OR of both halves' occupancy. */
  lemma ChestUnifiedSymmetric(left: BlockState, right: BlockState, entities: map<Pos, BlockEntity>, pos: Pos, cfg: Config)
    requires left.chest.Some? && left.chest.value.chestType == Left && left.chest.value.facing.IsHorizontal()
    requires right == left.(chest := Some(ChestProps(Right, left.chest.value.facing)))
    requires var np := ChestNeighbor(pos, left.chest.value);
             && pos in entities && entities[pos].kind.ChestEntity?
             && np in entities && entities[np].kind.ChestEntity?
    ensures var np := ChestNeighbor(pos, left.chest.value);
            var u := IsBlockEnabled(cfg, left.block) && (Occupied(entities[pos].slots) || Occupied(entities[np].slots));
            && ChestUnified(left, entities, pos, entities[pos].slots, cfg) == u
            && ChestUnified(right, entities, np, entities[np].slots, cfg) == u
  {
    ChestNeighborSymmetric(pos, left.chest.value.facing);
  }

  // ---------------------------------------------------------------------
  // Bulk refresh of loaded block entities
  // ---------------------------------------------------------------------

  /** The per-entity dispatch of the bulk refresh: containers whose state
      carries has_items go to the chest or plain update, furnace-like states
      (has_input) to the furnace update, everything else is skipped. */
  function RefreshOne(w: Store, entities: map<Pos, BlockEntity>, pos: Pos, cfg: Config): (r: Store)
    requires ValidStates(w.states) && EntitiesMatch(w.states, entities)
    ensures FlagsOnly(w.states, r.states)
  {
    if pos !in entities || entities[pos].kind.NotAContainer? then w
    else
      var e := entities[pos];
      var st := StateAt(w.states, pos);
      if st.hasItems.Some? then
        if e.kind.ChestEntity? then ChestUpdate(w, entities, pos, e.slots, cfg)
        else HasItemsUpdate(w, pos, e.slots, cfg)
      else if st.hasInput.Some? then FurnaceUpdate(w, pos, e.slots, cfg)
      else w
  }

  lemma FlagsOnlyKeepsMatch(a: map<Pos, BlockState>, b: map<Pos, BlockState>, entities: map<Pos, BlockEntity>)
    requires FlagsOnly(a, b) && EntitiesMatch(a, entities)
    ensures EntitiesMatch(b, entities)
  {
    forall p | p in entities && entities[p].kind.ChestEntity?
      ensures FamilyOf(StateAt(b, p).block) == ChestFamily
    {
      if p in a { assert SameShape(a[p], b[p]); }
    }
  }

  lemma FlagsOnlyTransitive(a: map<Pos, BlockState>, b: map<Pos, BlockState>, c: map<Pos, BlockState>)
    requires FlagsOnly(a, b) && FlagsOnly(b, c)
    ensures FlagsOnly(a, c)
  {
    forall p | p in a ensures SameShape(a[p], c[p]) {
      assert SameShape(a[p], b[p]) && SameShape(b[p], c[p]);
    }
  }

  /** The refresh of a sequence of block entities, in enumeration order. */
  function RefreshAll(w: Store, entities: map<Pos, BlockEntity>, ps: seq<Pos>, cfg: Config): (r: Store)
    requires ValidStates(w.states) && EntitiesMatch(w.states, entities)
    ensures ValidStates(r.states) && EntitiesMatch(r.states, entities)
    ensures FlagsOnly(w.states, r.states)
    decreases |ps|
  {
    if ps == [] then w
    else
      var w1 := RefreshOne(w, entities, ps[0], cfg);
      FlagsOnlyKeepsValid(w.states, w1.states);
      FlagsOnlyKeepsMatch(w.states, w1.states, entities);
      var r := RefreshAll(w1, entities, ps[1..], cfg);
      FlagsOnlyTransitive(w.states, w1.states, r.states);
      r
  }

  /** After refreshing a plain container, its flag reflects its own slots. */
  lemma RefreshSetsPlainContainer(w: Store, entities: map<Pos, BlockEntity>, pos: Pos, cfg: Config)
    requires ValidStates(w.states) && EntitiesMatch(w.states, entities)
    requires pos in entities && entities[pos].kind.OtherContainer?
    requires StateAt(w.states, pos).hasItems.Some?
    ensures StateAt(RefreshOne(w, entities, pos, cfg).states, pos).hasItems
            == Some(IsBlockEnabled(cfg, StateAt(w.states, pos).block) && Occupied(entities[pos].slots))
  {
  }

  /** After refreshing a chest half that carries has_items, it holds the
      unified value of the pair. */
  lemma RefreshSetsChest(w: Store, entities: map<Pos, BlockEntity>, pos: Pos, cfg: Config)
    requires ValidStates(w.states) && EntitiesMatch(w.states, entities)
    requires pos in entities && entities[pos].kind.ChestEntity?
    requires StateAt(w.states, pos).hasItems.Some?
    ensures var st := StateAt(w.states, pos);
            st.chest.Some? && st.chest.value.facing.IsHorizontal()
            && StateAt(RefreshOne(w, entities, pos, cfg).states, pos).hasItems
               == Some(ChestUnified(st, entities, pos, entities[pos].slots, cfg))
  {
    ChestHalvesAgree(w, entities, pos, entities[pos].slots, cfg);
  }

  /** After refreshing a furnace-like state, its two flags reflect slots 0 and 1. */
  lemma RefreshSetsFurnace(w: Store, entities: map<Pos, BlockEntity>, pos: Pos, cfg: Config)
    requires ValidStates(w.states) && EntitiesMatch(w.states, entities)
    requires pos in entities && !entities[pos].kind.NotAContainer?
    requires StateAt(w.states, pos).hasItems.None?
    requires StateAt(w.states, pos).hasInput.Some? && StateAt(w.states, pos).hasFuel.Some?
    ensures var st := StateAt(w.states, pos);
            var s := StateAt(RefreshOne(w, entities, pos, cfg).states, pos);
            && s.hasInput == Some(InputValue(cfg, st.block, entities[pos].slots))
            && s.hasFuel == Some(FuelValue(cfg, st.block, entities[pos].slots))
  {
  }

  /** Whether refreshing the entity at q may write position p: its own
      position, or its partner half when it is a chest entity on a double
      chest carrying has_items. */
  predicate Touches(states: map<Pos, BlockState>, entities: map<Pos, BlockEntity>, q: Pos, p: Pos)
  {
    var st := StateAt(states, q);
    || p == q
    || (&& q in entities && entities[q].kind.ChestEntity?
        && st.hasItems.Some? && st.chest.Some? && st.chest.value.chestType != Single
        && st.chest.value.facing.IsHorizontal()
        && ChestNeighbor(q, st.chest.value) == p)
  }

  lemma TouchesKept(a: map<Pos, BlockState>, b: map<Pos, BlockState>, entities: map<Pos, BlockEntity>, q: Pos, p: Pos)
    requires FlagsOnly(a, b)
    ensures Touches(a, entities, q, p) == Touches(b, entities, q, p)
  {
    if q in a { assert SameShape(a[q], b[q]); }
  }

  /** Refreshing an entity leaves every position it does not touch alone. */
  lemma RefreshOneFrame(w: Store, entities: map<Pos, BlockEntity>, q: Pos, cfg: Config, p: Pos)
    requires ValidStates(w.states) && EntitiesMatch(w.states, entities)
    requires !Touches(w.states, entities, q, p)
    ensures StateAt(RefreshOne(w, entities, q, cfg).states, p) == StateAt(w.states, p)
  {
    if q in entities && entities[q].kind.ChestEntity? && StateAt(w.states, q).hasItems.Some? {
      ChestFrame(w, entities, q, entities[q].slots, cfg, p);
    }
  }

  /** The state a refresh leaves at an entity's own position depends only on
      the state stored there before. */
  lemma RefreshOneLocal(w1: Store, w2: Store, entities: map<Pos, BlockEntity>, pos: Pos, cfg: Config)
    requires ValidStates(w1.states) && EntitiesMatch(w1.states, entities)
    requires ValidStates(w2.states) && EntitiesMatch(w2.states, entities)
    requires StateAt(w1.states, pos) == StateAt(w2.states, pos)
    ensures StateAt(RefreshOne(w1, entities, pos, cfg).states, pos) == StateAt(RefreshOne(w2, entities, pos, cfg).states, pos)
  {
    if pos in entities && entities[pos].kind.ChestEntity? && StateAt(w1.states, pos).hasItems.Some? {
      ChestHalvesAgree(w1, entities, pos, entities[pos].slots, cfg);
      ChestHalvesAgree(w2, entities, pos, entities[pos].slots, cfg);
    }
  }

  /** Refreshing the same entity twice leaves its position as the first refresh did. */
  lemma RefreshOneSettles(w: Store, entities: map<Pos, BlockEntity>, pos: Pos, cfg: Config)
    requires ValidStates(w.states) && EntitiesMatch(w.states, entities)
    ensures var w1 := RefreshOne(w, entities, pos, cfg);
            ValidStates(w1.states) && EntitiesMatch(w1.states, entities)
            && StateAt(RefreshOne(w1, entities, pos, cfg).states, pos) == StateAt(w1.states, pos)
  {
    var w1 := RefreshOne(w, entities, pos, cfg);
    FlagsOnlyKeepsValid(w.states, w1.states);
    FlagsOnlyKeepsMatch(w.states, w1.states, entities);
    if pos in entities && entities[pos].kind.ChestEntity? && StateAt(w.states, pos).hasItems.Some? {
      ChestHalvesAgree(w, entities, pos, entities[pos].slots, cfg);
      ChestHalvesAgree(w1, entities, pos, entities[pos].slots, cfg);
    }
  }

  /** A bulk refresh leaves alone every position none of its entities touches. */
  lemma {:induction false} RefreshAllFrame(w: Store, entities: map<Pos, BlockEntity>, ps: seq<Pos>, cfg: Config, p: Pos)
    requires ValidStates(w.states) && EntitiesMatch(w.states, entities)
    requires forall j :: 0 <= j < |ps| ==> !Touches(w.states, entities, ps[j], p)
    ensures StateAt(RefreshAll(w, entities, ps, cfg).states, p) == StateAt(w.states, p)
    decreases |ps|
  {
    if ps != [] {
      var w1 := RefreshOne(w, entities, ps[0], cfg);
      RefreshOneFrame(w, entities, ps[0], cfg, p);
      FlagsOnlyKeepsValid(w.states, w1.states);
      FlagsOnlyKeepsMatch(w.states, w1.states, entities);
      forall j | 0 <= j < |ps[1..]| ensures !Touches(w1.states, entities, ps[1..][j], p) {
        TouchesKept(w.states, w1.states, entities, ps[j + 1], p);
      }
      RefreshAllFrame(w1, entities, ps[1..], cfg, p);
    }
  }

  /** Refreshing a + b is refreshing a, then b. */
  lemma {:induction false} RefreshAllConcat(w: Store, entities: map<Pos, BlockEntity>, a: seq<Pos>, b: seq<Pos>, cfg: Config)
    requires ValidStates(w.states) && EntitiesMatch(w.states, entities)
    ensures var wa := RefreshAll(w, entities, a, cfg);
            RefreshAll(w, entities, a + b, cfg) == RefreshAll(wa, entities, b, cfg)
    decreases |a|
  {
    if a != [] {
      var w1 := RefreshOne(w, entities, a[0], cfg);
      FlagsOnlyKeepsValid(w.states, w1.states);
      FlagsOnlyKeepsMatch(w.states, w1.states, entities);
      assert (a + b)[1..] == a[1..] + b;
      RefreshAllConcat(w1, entities, a[1..], b, cfg);
    } else {
      assert a + b == b;
    }
  }

  /** What a bulk refresh achieves: every listed entity that no later entity
      touches ends up in sync with its contents, so refreshing it once more
      would change nothing at its position. */
  lemma RefreshAllSettles(w: Store, entities: map<Pos, BlockEntity>, ps: seq<Pos>, cfg: Config, i: int)
    requires ValidStates(w.states) && EntitiesMatch(w.states, entities)
    requires 0 <= i < |ps|
    requires forall j :: i < j < |ps| ==> !Touches(w.states, entities, ps[j], ps[i])
    ensures var r := RefreshAll(w, entities, ps, cfg);
            StateAt(RefreshOne(r, entities, ps[i], cfg).states, ps[i]) == StateAt(r.states, ps[i])
  {
    var r := RefreshAll(w, entities, ps, cfg);
    var wi := RefreshAll(w, entities, ps[..i], cfg);
    assert ps == ps[..i] + ps[i..];
    RefreshAllConcat(w, entities, ps[..i], ps[i..], cfg);
    var w1 := RefreshOne(wi, entities, ps[i], cfg);
    RefreshOneSettles(wi, entities, ps[i], cfg);
    var later := ps[i + 1..];
    assert ps[i..][1..] == later;
    assert r == RefreshAll(w1, entities, later, cfg);
    FlagsOnlyTransitive(w.states, wi.states, w1.states);
    forall j | 0 <= j < |later| ensures !Touches(w1.states, entities, later[j], ps[i]) {
      TouchesKept(w.states, w1.states, entities, later[j], ps[i]);
    }
    RefreshAllFrame(w1, entities, later, cfg, ps[i]);
    RefreshOneLocal(r, w1, entities, ps[i], cfg);
  }

  /** In particular a plain container listed in a bulk refresh, and touched
      by no later entity, ends with its flag set from its own slots. */
  lemma RefreshAllSyncsPlainContainer(w: Store, entities: map<Pos, BlockEntity>, ps: seq<Pos>, cfg: Config, i: int)
    requires ValidStates(w.states) && EntitiesMatch(w.states, entities)
    requires 0 <= i < |ps| && ps[i] in entities && entities[ps[i]].kind.OtherContainer?
    requires StateAt(w.states, ps[i]).hasItems.Some?
    requires forall j :: i < j < |ps| ==> !Touches(w.states, entities, ps[j], ps[i])
    ensures StateAt(RefreshAll(w, entities, ps, cfg).states, ps[i]).hasItems
            == Some(HasItemsValue(cfg, StateAt(w.states, ps[i]).block, entities[ps[i]].slots))
  {
    var r := RefreshAll(w, entities, ps, cfg);
    RefreshAllSettles(w, entities, ps, cfg, i);
    assert ps[i] in w.states;
    assert SameShape(w.states[ps[i]], r.states[ps[i]]);
    RefreshSetsPlainContainer(r, entities, ps[i], cfg);
  }

  /** The level: block states, block entities and the broadcast write log. */
  class World {
    const isClientSide: bool
    var states: map<Pos, BlockState>
    var entities: map<Pos, BlockEntity>
    var log: seq<Pos>

    predicate Valid()
      reads this
    {
      ValidStates(states) && EntitiesMatch(states, entities)
    }

    function Snapshot(): Store
      reads this
    {
      Store(states, log)
    }

    constructor (clientSide: bool, states: map<Pos, BlockState>, entities: map<Pos, BlockEntity>)
      ensures isClientSide == clientSide
      ensures this.states == states && this.entities == entities && log == []
    {
      isClientSide := clientSide;
      this.states := states;
      this.entities := entities;
      log := [];
    }

    function GetBlockState(p: Pos): BlockState
      reads this
    {
      StateAt(states, p)
    }

    /** setBlock(pos, state, UPDATE_CLIENTS). */
    method SetBlock(p: Pos, s: BlockState)
      modifies this
      ensures Snapshot() == Put(old(Snapshot()), p, s)
      ensures entities == old(entities)
    {
      states := states[p := s];
      log := log + [p];
    }

    /** refreshAllContainers: the bulk refresh of the given block entities. */
    method RefreshAllContainers(ps: seq<Pos>, cfg: Config)
      requires Valid() && !isClientSide
      modifies this
      ensures Valid() && entities == old(entities)
      ensures Snapshot() == RefreshAll(old(Snapshot()), entities, ps, cfg)
    {
      var i := 0;
      while i < |ps|
        invariant 0 <= i <= |ps|
        invariant Valid() && entities == old(entities)
        invariant RefreshAll(Snapshot(), entities, ps[i..], cfg) == RefreshAll(old(Snapshot()), entities, ps, cfg)
      {
        var pos := ps[i];
        assert ps[i..][1..] == ps[i + 1..];
        if pos in entities && !entities[pos].kind.NotAContainer? {
          var e := entities[pos];
          var st := GetBlockState(pos);
          if st.hasItems.Some? {
            if e.kind.ChestEntity? {
              UpdateChestHasItems(this, pos, e.slots, cfg);
            } else {
              UpdateHasItems(this, pos, e.slots, cfg);
            }
          } else if st.hasInput.Some? {
            UpdateFurnaceState(this, pos, e.slots, cfg);
          }
        }
        i := i + 1;
      }
    }
  }

  /** updateHasItems(entity, container): a no-op without a level, on a
      client-side level, or when the state lacks has_items. */
  method UpdateHasItems(level: World?, pos: Pos, container: seq<bool>, cfg: Config)
    modifies level
    ensures level != null ==> level.entities == old(level.entities)
    ensures level != null && level.isClientSide ==> level.Snapshot() == old(level.Snapshot())
    ensures level != null && !level.isClientSide ==>
              level.Snapshot() == HasItemsUpdate(old(level.Snapshot()), pos, container, cfg)
  {
    if level == null || level.isClientSide {
      return;
    }
    var st := level.GetBlockState(pos);
    if st.hasItems.None? {
      return;
    }
    var hasItems := false;
    if IsBlockEnabled(cfg, st.block) {
      hasItems := AnyOccupied(container);
    }
    if st.hasItems.value != hasItems {
      level.SetBlock(pos, st.(hasItems := Some(hasItems)));
    }
  }

  /** updateHasItems(entity, inventory): the same recomputation, walking the list. */
  method UpdateHasItemsFromList(level: World?, pos: Pos, inventory: seq<bool>, cfg: Config)
    modifies level
    ensures level != null ==> level.entities == old(level.entities)
    ensures level != null && level.isClientSide ==> level.Snapshot() == old(level.Snapshot())
    ensures level != null && !level.isClientSide ==>
              level.Snapshot() == HasItemsUpdate(old(level.Snapshot()), pos, inventory, cfg)
  {
    if level == null || level.isClientSide {
      return;
    }
    var st := level.GetBlockState(pos);
    if st.hasItems.None? {
      return;
    }
    var hasItems := false;
    if IsBlockEnabled(cfg, st.block) {
      var rest := inventory;
      while rest != []
        invariant |rest| <= |inventory| && rest == inventory[|inventory| - |rest|..]
        invariant !hasItems
        invariant forall j :: 0 <= j < |inventory| - |rest| ==> !inventory[j]
      {
        if rest[0] {
          hasItems := true;
          break;
        }
        rest := rest[1..];
      }
    }
    if st.hasItems.value != hasItems {
      level.SetBlock(pos, st.(hasItems := Some(hasItems)));
    }
  }

  /** updateFurnaceState(entity, items). */
  method UpdateFurnaceState(level: World?, pos: Pos, items: seq<bool>, cfg: Config)
    modifies level
    ensures level != null ==> level.entities == old(level.entities)
    ensures level != null && level.isClientSide ==> level.Snapshot() == old(level.Snapshot())
    ensures level != null && !level.isClientSide ==>
              level.Snapshot() == FurnaceUpdate(old(level.Snapshot()), pos, items, cfg)
  {
    if level == null || level.isClientSide {
      return;
    }
    var st := level.GetBlockState(pos);
    if st.hasInput.None? || st.hasFuel.None? {
      return;
    }
    var hasInput := false;
    var hasFuel := false;
    if IsBlockEnabled(cfg, st.block) {
      hasInput := |items| > 0 && items[0];
      hasFuel := |items| > 1 && items[1];
    }
    if st.hasInput.value != hasInput || st.hasFuel.value != hasFuel {
      level.SetBlock(pos, st.(hasInput := Some(hasInput), hasFuel := Some(hasFuel)));
    }
  }

  /** updateChestHasItems(entity, container). */
  method UpdateChestHasItems(level: World?, pos: Pos, container: seq<bool>, cfg: Config)
    requires level != null ==> ChestReady(level.states, pos)
    modifies level
    ensures level != null ==> level.entities == old(level.entities)
    ensures level != null && level.isClientSide ==> level.Snapshot() == old(level.Snapshot())
    ensures level != null && !level.isClientSide ==>
              level.Snapshot() == ChestUpdate(old(level.Snapshot()), old(level.entities), pos, container, cfg)
  {
    if level == null || level.isClientSide {
      return;
    }
    var st := level.GetBlockState(pos);
    if st.hasItems.None? {
      return;
    }
    assert pos in level.states;
    var enabled := IsBlockEnabled(cfg, st.block);
    var thisHasItems := false;
    if enabled {
      thisHasItems := AnyOccupied(container);
    }
    var unified := thisHasItems;
    var props := st.chest.value;
    if !unified && props.chestType != Single && enabled {
      var np := ChestNeighbor(pos, props);
      if np in level.entities && level.entities[np].kind.ChestEntity? {
        unified := AnyOccupied(level.entities[np].slots);
      }
    }
    assert unified == ChestUnified(st, level.entities, pos, container, cfg);
    if st.hasItems.value != unified {
      level.SetBlock(pos, st.(hasItems := Some(unified)));
    }
    if props.chestType != Single {
      var np := ChestNeighbor(pos, props);
      var ns := level.GetBlockState(np);
      if ns.hasItems.Some? && ns.hasItems.value != unified {
        level.SetBlock(np, ns.(hasItems := Some(unified)));
      }
    }
  }
}
