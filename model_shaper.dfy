/**
 * Model-cache rewrite: when the host rebuilds its block-state → model cache,
 * every state whose indicator properties are lit gets its model wrapped
 * with the matching overlay parts, built once per rebuild.
 */
module ModelShaper {
  import opened Types
  import opened QuadFactory
  import opened ModelPart
  import opened CompositeModel
  import StateHelper

  /** The prebuilt overlay a block state can be given. */
  datatype Kind = StandardKind | BottomKind | PotKind | ChestKind | DoubleChestKind(facing: Direction)

  /** Rotation of the double-chest overlay for a left half with the given
      facing: the base overlay reaches east, and a left half's partner is a
      quarter turn clockwise from its facing. Vertical facings fall back to
      the unrotated overlay. */
  function DoubleChestDegrees(facing: Direction): (r: int)
    ensures r % 90 == 0 && 0 <= r < 360
  {
    match facing
    case North => 0
    case East => 90
    case South => 180
    case West => 270
    case _ => 0
  }

  /** The overlays a block state gets, in drawing order: simple containers
      and pots one when they hold items, furnaces the top overlay for input
      and the bottom one for fuel, single chests the chest overlay, the left
      half of a double chest the double overlay for its facing, and nothing
      for a right half (its partner draws over both). */
  function OverlaysFor(s: BlockState): (r: seq<Kind>)
    requires WellFormed(s)
    ensures |r| <= 2
  {
    match FamilyOf(s.block)
    case SimpleContainer => if s.hasItems.value then [StandardKind] else []
    case PotFamily => if s.hasItems.value then [PotKind] else []
    case FurnaceFamily =>
      var input, fuel := s.hasInput.value, s.hasFuel.value;
      if input && fuel then [StandardKind, BottomKind]
      else if input then [StandardKind]
      else if fuel then [BottomKind]
      else []
    case ChestFamily =>
      if !s.hasItems.value then []
      else (match s.chest.value.chestType
        case Single => [ChestKind]
        case Left => [DoubleChestKind(s.chest.value.facing)]
        case Right => [])
    case NoFamily => []
  }

  /** Overlays are chosen by block class alone: two states of blocks of the
      same class (a vanilla block and a mod's subclass of it, say) with the
      same properties get the same overlays. */
  lemma OverlaysFollowClass(s: BlockState, t: BlockState)
    requires WellFormed(s) && WellFormed(t)
    requires FamilyOf(s.block) == FamilyOf(t.block)
    requires s.hasItems == t.hasItems && s.hasInput == t.hasInput && s.hasFuel == t.hasFuel && s.chest == t.chest
    ensures OverlaysFor(s) == OverlaysFor(t)
  {
  }

  /** A state shows an indicator exactly when one of its flags is lit,
      except the right half of a double chest. */
  predicate Lit(s: BlockState)
    requires WellFormed(s)
  {
    match FamilyOf(s.block)
    case SimpleContainer | PotFamily => s.hasItems.value
    case FurnaceFamily => s.hasInput.value || s.hasFuel.value
    case ChestFamily => s.hasItems.value && s.chest.value.chestType != Right
    case NoFamily => false
  }

  /** The decision table, overlay by overlay, in both directions. */
  lemma OverlayTable(s: BlockState)
    requires WellFormed(s)
    ensures OverlaysFor(s) != [] <==> Lit(s)
    ensures StandardKind in OverlaysFor(s) <==>
              (FamilyOf(s.block) == SimpleContainer && s.hasItems.value)
              || (FamilyOf(s.block) == FurnaceFamily && s.hasInput.value)
    ensures BottomKind in OverlaysFor(s) <==> FamilyOf(s.block) == FurnaceFamily && s.hasFuel.value
    ensures PotKind in OverlaysFor(s) <==> FamilyOf(s.block) == PotFamily && s.hasItems.value
    ensures ChestKind in OverlaysFor(s) <==>
              FamilyOf(s.block) == ChestFamily && s.hasItems.value && s.chest.value.chestType == Single
    ensures forall f :: DoubleChestKind(f) in OverlaysFor(s) <==>
              FamilyOf(s.block) == ChestFamily && s.hasItems.value
              && s.chest.value.chestType == Left && s.chest.value.facing == f
    ensures |OverlaysFor(s)| == 2 ==> OverlaysFor(s) == [StandardKind, BottomKind]
  {
  }

  /** The rotation chosen for a left half turns the overlay's far end (east)
      onto the direction of its partner half. */
  lemma DoubleChestTurnsTowardsPartner(pos: Pos, facing: Direction)
    requires facing.IsHorizontal()
    ensures TurnedBy(East, StepsOf(DoubleChestDegrees(facing))) == ClockWise(facing)
    ensures StateHelper.ChestNeighbor(pos, ChestProps(Left, facing))
            == Relative(pos, TurnedBy(East, StepsOf(DoubleChestDegrees(facing))))
  {
    StepsOfIsQuarterTurns(DoubleChestDegrees(facing));
  }

  /** A point within a block cell or the neighbouring cell in direction d
      (horizontal), at lid height. */
  predicate InCellPair(c: Vec3, d: Direction)
  {
    var ox, oz := StepX(d) as real, StepZ(d) as real;
    && (if ox < 0.0 then ox else 0.0) <= c.x <= 1.0 + (if ox > 0.0 then ox else 0.0)
    && 0.5 <= c.y <= 0.6
    && (if oz < 0.0 then oz else 0.0) <= c.z <= 1.0 + (if oz > 0.0 then oz else 0.0)
  }

  lemma RotatedCornerInPair(c: Vec3, steps: int)
    requires 1 <= steps <= 3
    requires Within(c, Vec3(0.0, 0.5, 0.0), Vec3(2.0, 0.6, 1.0))
    ensures InCellPair(RotatePointY(c, steps), TurnedBy(East, steps))
  {
  }

  /** Every corner of the double-chest overlay chosen for a left half lies in
      the left half's cell or in its partner's cell. */
  lemma LeftHalfOverlayCoversBothHalves(sprite: Sprite, pos: Pos, facing: Direction, i: int, c: Vec3)
    requires facing.IsHorizontal()
    requires 0 <= i < 8
    requires c in Corners(RotatedQuads(DoubleChestOverlay(sprite, 0), DoubleChestDegrees(facing))[i])
    ensures StateHelper.ChestNeighbor(pos, ChestProps(Left, facing)) == Relative(pos, ClockWise(facing))
    ensures InCellPair(c, ClockWise(facing))
  {
    var base := DoubleChestOverlay(sprite, 0);
    var degrees := DoubleChestDegrees(facing);
    StepsOfIsQuarterTurns(degrees);
    DoubleChestTurnsTowardsPartner(pos, facing);
    var steps := StepsOf(degrees);
    if steps == 0 {
      assert facing == North;
      DoubleChestSpansTwoCells(sprite, 0, i, c);
    } else {
      var q := base[i];
      var r := RotateQuadY(q, steps);
      assert RotatedQuads(base, degrees)[i] == r;
      var c0 :| c0 in Corners(q) && c == RotatePointY(c0, steps) by {
        assert Corners(r) == [RotatePointY(q.p0, steps), RotatePointY(q.p1, steps),
                              RotatePointY(q.p2, steps), RotatePointY(q.p3, steps)];
      }
      DoubleChestSpansTwoCells(sprite, 0, i, c0);
      RotatedCornerInPair(c0, steps);
    }
  }

  /** The overlay parts built once per cache rebuild. */
  datatype Parts = Parts(
    standard: OverlayBlockModelPart,
    bottom: OverlayBlockModelPart,
    pot: OverlayBlockModelPart,
    chest: OverlayBlockModelPart,
    doubleNorth: OverlayBlockModelPart,
    doubleEast: OverlayBlockModelPart,
    doubleSouth: OverlayBlockModelPart,
    doubleWest: OverlayBlockModelPart)

  function PartObjects(ps: Parts): set<OverlayBlockModelPart>
  {
    {ps.standard, ps.bottom, ps.pot, ps.chest, ps.doubleNorth, ps.doubleEast, ps.doubleSouth, ps.doubleWest}
  }

  /** What each part holds: the top overlay (tint 0) and the bottom overlay
      (tint 1) sorted by cull face; the pot, chest and four turned double-chest
      overlays (tint 0) unculled; all with the indicator sprite. */
  ghost predicate Built(ps: Parts, sprite: Sprite)
    reads PartObjects(ps)
  {
    && Holds(ps.standard, StandardOverlay(sprite, 0), true, sprite)
    && Holds(ps.bottom, BottomOverlay(sprite, 1), true, sprite)
    && Holds(ps.pot, PotOverlay(sprite, 0), false, sprite)
    && Holds(ps.chest, ChestOverlay(sprite, 0), false, sprite)
    && Holds(ps.doubleNorth, RotatedQuads(DoubleChestOverlay(sprite, 0), 0), false, sprite)
    && Holds(ps.doubleEast, RotatedQuads(DoubleChestOverlay(sprite, 0), 90), false, sprite)
    && Holds(ps.doubleSouth, RotatedQuads(DoubleChestOverlay(sprite, 0), 180), false, sprite)
    && Holds(ps.doubleWest, RotatedQuads(DoubleChestOverlay(sprite, 0), 270), false, sprite)
  }

  /** A part built from the given quads, culled or not, with the sprite. */
  ghost predicate Holds(p: OverlayBlockModelPart, quads: seq<Quad>, useCullface: bool, sprite: Sprite)
    reads p
  {
    p.Valid() && p.quads == quads && p.useCullface == useCullface && p.sprite == sprite
  }

  /** One double-chest part: the double overlay turned by the given angle. */
  method BuildDoubleChestPart(doubleChestQuads: seq<Quad>, degrees: int, sprite: Sprite)
    returns (part: OverlayBlockModelPart)
    ensures fresh(part)
    ensures Holds(part, RotatedQuads(doubleChestQuads, degrees), false, sprite)
  {
    var rotated := RotateQuadsY(doubleChestQuads, degrees);
    part := new OverlayBlockModelPart(rotated, sprite, false);
  }

  /** Builds the eight parts. */
  method BuildParts(sprite: Sprite) returns (ps: Parts)
    ensures fresh(PartObjects(ps))
    ensures Built(ps, sprite)
  {
    var standardQuads := StandardOverlay(sprite, 0);
    var bottomQuads := BottomOverlay(sprite, 1);
    var potQuads := PotOverlay(sprite, 0);
    var chestQuads := ChestOverlay(sprite, 0);
    var doubleChestQuads := DoubleChestOverlay(sprite, 0);

    var standardPart := new OverlayBlockModelPart(standardQuads, sprite, true);
    var bottomPart := new OverlayBlockModelPart(bottomQuads, sprite, true);
    var potPart := new OverlayBlockModelPart(potQuads, sprite, false);
    var chestPart := new OverlayBlockModelPart(chestQuads, sprite, false);
    assert Holds(standardPart, standardQuads, true, sprite);
    assert Holds(bottomPart, bottomQuads, true, sprite);
    assert Holds(potPart, potQuads, false, sprite);
    assert Holds(chestPart, chestQuads, false, sprite);

    var doubleNorth := BuildDoubleChestPart(doubleChestQuads, 0, sprite);
    var doubleEast := BuildDoubleChestPart(doubleChestQuads, 90, sprite);
    var doubleSouth := BuildDoubleChestPart(doubleChestQuads, 180, sprite);
    var doubleWest := BuildDoubleChestPart(doubleChestQuads, 270, sprite);

    ps := Parts(standardPart, bottomPart, potPart, chestPart, doubleNorth, doubleEast, doubleSouth, doubleWest);
  }

  /** The part that draws an overlay kind: always one of the prebuilt parts,
      the double-chest part chosen by facing with north for any other. */
  function PartFor(ps: Parts, k: Kind): (r: OverlayBlockModelPart)
    ensures r in PartObjects(ps)
    ensures k.DoubleChestKind? && !k.facing.IsHorizontal() ==> r == ps.doubleNorth
  {
    match k
    case StandardKind => ps.standard
    case BottomKind => ps.bottom
    case PotKind => ps.pot
    case ChestKind => ps.chest
    case DoubleChestKind(f) =>
      match f
      case East => ps.doubleEast
      case South => ps.doubleSouth
      case West => ps.doubleWest
      case _ => ps.doubleNorth
  }

  /** The double-chest part for a facing holds the double overlay turned by
      that facing's rotation. */
  lemma DoubleChestPartTurned(ps: Parts, sprite: Sprite, facing: Direction)
    requires Built(ps, sprite)
    ensures PartFor(ps, DoubleChestKind(facing)).quads
            == RotatedQuads(DoubleChestOverlay(sprite, 0), DoubleChestDegrees(facing))
  {
  }

  /** Every part draws its overlay with the tint channel of its colour: the
      bottom (fuel) overlay channel 1, every other overlay channel 0. */
  lemma PartTints(ps: Parts, sprite: Sprite, k: Kind, q: Quad)
    requires Built(ps, sprite)
    requires q in PartFor(ps, k).quads
    ensures q.tintIndex == (if k == BottomKind then 1 else 0)
    ensures q.sprite == sprite
  {
    var p := PartFor(ps, k);
    var i :| 0 <= i < |p.quads| && p.quads[i] == q;
    match k
    case StandardKind => assert p.quads == StandardOverlay(sprite, 0);
    case BottomKind => assert p.quads == BottomOverlay(sprite, 1);
    case PotKind => assert p.quads == PotOverlay(sprite, 0);
    case ChestKind => assert p.quads == ChestOverlay(sprite, 0);
    case DoubleChestKind(f) =>
      DoubleChestPartTurned(ps, sprite, f);
      RotationKeepsAttributes(DoubleChestOverlay(sprite, 0), DoubleChestDegrees(f), i);
  }

  /** The full-cube overlays are culled per face; the inset and chest
      overlays are always drawn. */
  lemma PartCulling(ps: Parts, sprite: Sprite, k: Kind)
    requires Built(ps, sprite)
    ensures var p := PartFor(ps, k);
            if k == StandardKind || k == BottomKind
            then p.GetQuads(None) == [] && forall d :: p.GetQuads(Some(d)) == Facing(p.quads, d)
            else p.GetQuads(None) == p.quads && forall d :: p.GetQuads(Some(d)) == []
  {
  }

  /** A model given overlays of the listed kinds; none leaves it as it was.
      Wrapping keeps the host model underneath. */
  function Wrap(m: BlockStateModel, kinds: seq<Kind>, ps: Parts): (r: BlockStateModel)
    ensures kinds == [] ==> r == m
    ensures kinds != [] ==> r.Composite? && r.original == m && |r.overlayParts| == |kinds|
    ensures Innermost(r) == Innermost(m)
  {
    if kinds == [] then m
    else Composite(m, seq(|kinds|, i requires 0 <= i < |kinds| => Overlay(PartFor(ps, kinds[i]))))
  }

  /** A wrapped model draws everything the original drew, then one part per
      overlay kind in order, and keeps the original particle icon. */
  lemma WrapDrawsOverlaysLast(m: BlockStateModel, kinds: seq<Kind>, ps: Parts)
    ensures var w := Wrap(m, kinds, ps);
            && |PartsOf(w)| == |PartsOf(m)| + |kinds|
            && PartsOf(w)[..|PartsOf(m)|] == PartsOf(m)
            && (forall i :: 0 <= i < |kinds| ==> PartsOf(w)[|PartsOf(m)| + i] == Overlay(PartFor(ps, kinds[i])))
            && ParticleIcon(w) == ParticleIcon(m)
  {
  }

  /** A state keeps its model exactly when it shows no indicator; a lit
      state's model becomes a composite around the old one. */
  lemma UnlitStatesKeepTheirModel(m: BlockStateModel, s: BlockState, ps: Parts)
    requires WellFormed(s)
    ensures Wrap(m, OverlaysFor(s), ps) == m <==> !Lit(s)
    ensures Lit(s) ==> Wrap(m, OverlaysFor(s), ps).Composite? && Wrap(m, OverlaysFor(s), ps).original == m
  {
    OverlayTable(s);
  }

  /** The host's block-state → model cache being rebuilt. */
  class ModelCache {
    var entries: map<BlockState, BlockStateModel>

    constructor (entries: map<BlockState, BlockStateModel>)
      ensures this.entries == entries
    {
      this.entries := entries;
    }
  }

  /** Replaces each entry's model with its wrapped model, one entry at a time. */
  method ReplaceModels(cache: ModelCache, ps: Parts)
    modifies cache
    requires forall k :: k in cache.entries ==> WellFormed(k)
    ensures cache.entries.Keys == old(cache.entries).Keys
    ensures forall k :: k in old(cache.entries) ==>
              cache.entries[k] == Wrap(old(cache.entries)[k], OverlaysFor(k), ps)
  {
    ghost var orig := cache.entries;
    var todo := cache.entries.Keys;
    while todo != {}
      invariant todo <= orig.Keys
      invariant cache.entries.Keys == orig.Keys
      invariant forall k :: k in todo ==> cache.entries[k] == orig[k]
      invariant forall k :: k in orig && k !in todo ==> cache.entries[k] == Wrap(orig[k], OverlaysFor(k), ps)
      decreases |todo|
    {
      var state :| state in todo;
      var kinds := OverlaysFor(state);
      if kinds != [] {
        cache.entries := cache.entries[state := Wrap(cache.entries[state], kinds, ps)];
      }
      todo := todo - {state};
    }
  }

  /** The cache-rebuild hook: build the parts once, then wrap every entry. */
  method OnReplaceCache(cache: ModelCache, sprite: Sprite) returns (ps: Parts)
    modifies cache
    requires forall k :: k in cache.entries ==> WellFormed(k)
    ensures Built(ps, sprite)
    ensures cache.entries.Keys == old(cache.entries).Keys
    ensures forall k :: k in old(cache.entries) ==>
              cache.entries[k] == Wrap(old(cache.entries)[k], OverlaysFor(k), ps)
  {
    ps := BuildParts(sprite);
    ReplaceModels(cache, ps);
  }
}
