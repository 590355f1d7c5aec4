/**
 * The overlay model part: a fixed list of quads handed to the renderer,
 * either sorted by cull direction (so the renderer can skip faces hidden by
 * a neighbouring block) or kept as one always-drawn list.
 */
module ModelPart {
  import opened Types
  import opened QuadFactory

  /** The quads of qs whose direction is d, in their order in qs. */
  function Facing(qs: seq<Quad>, d: Direction): (r: seq<Quad>)
    ensures |r| <= |qs|
    ensures forall q :: q in r ==> q.direction == d
  {
    if qs == [] then []
    else
      var last := qs[|qs| - 1];
      Facing(qs[..|qs| - 1], d) + (if last.direction == d then [last] else [])
  }

  /** Selecting by direction distributes over concatenation, so it keeps the input order. */
  lemma {:induction false} FacingConcat(a: seq<Quad>, b: seq<Quad>, d: Direction)
    ensures Facing(a + b, d) == Facing(a, d) + Facing(b, d)
    decreases |b|
  {
    if b == [] {
      assert a + b == a;
    } else {
      var b' := b[..|b| - 1];
      assert (a + b)[..|a + b| - 1] == a + b';
      FacingConcat(a, b', d);
    }
  }

  /** Each quad occurs in the selection for its own direction as often as in
      the input, and in no other selection. */
  lemma {:induction false} FacingCounts(qs: seq<Quad>, d: Direction, q: Quad)
    ensures multiset(Facing(qs, d))[q] == if q.direction == d then multiset(qs)[q] else 0
    decreases |qs|
  {
    if qs != [] {
      var init := qs[..|qs| - 1];
      FacingCounts(init, d, q);
      assert qs == init + [qs[|qs| - 1]];
    }
  }

  /** All six selections together are the input, quad for quad. */
  function AllFacing(qs: seq<Quad>): multiset<Quad>
  {
    multiset(Facing(qs, Down)) + multiset(Facing(qs, Up)) + multiset(Facing(qs, North))
      + multiset(Facing(qs, South)) + multiset(Facing(qs, West)) + multiset(Facing(qs, East))
  }

  lemma FacingPartitions(qs: seq<Quad>)
    ensures AllFacing(qs) == multiset(qs)
  {
    forall q | true
      ensures AllFacing(qs)[q] == multiset(qs)[q]
    {
      FacingCounts(qs, Down, q);
      FacingCounts(qs, Up, q);
      FacingCounts(qs, North, q);
      FacingCounts(qs, South, q);
      FacingCounts(qs, West, q);
      FacingCounts(qs, East, q);
    }
  }

  class OverlayBlockModelPart {
    var culledQuads: map<Direction, seq<Quad>>
    var unculledQuads: seq<Quad>
    const sprite: Sprite
    /** The constructor's arguments, kept to state what the part answers. */
    ghost const quads: seq<Quad>
    ghost const useCullface: bool

    /** Culled: one list per direction holding that direction's quads and no
        unculled list. Unculled: no direction lists and every quad unculled. */
    ghost predicate Valid()
      reads this
    {
      if useCullface then
        && (forall d :: d in culledQuads)
        && (forall d :: d in culledQuads ==> culledQuads[d] == Facing(quads, d))
        && unculledQuads == []
      else
        culledQuads == map[] && unculledQuads == quads
    }

    constructor (quads: seq<Quad>, sprite: Sprite, useCullface: bool)
      ensures Valid()
      ensures this.quads == quads && this.sprite == sprite && this.useCullface == useCullface
    {
      this.sprite := sprite;
      this.quads := quads;
      this.useCullface := useCullface;
      var culled: map<Direction, seq<Quad>> := map[];
      var unculled: seq<Quad> := [];
      if useCullface {
        var j := 0;
        while j < |AllDirections|
          invariant 0 <= j <= |AllDirections|
          invariant forall d :: d in culled <==> d in AllDirections[..j]
          invariant forall d :: d in culled ==> culled[d] == []
        {
          culled := culled[AllDirections[j] := []];
          j := j + 1;
        }
        assert forall d :: d in culled by {
          forall d: Direction ensures d in culled {
            AllDirectionsComplete(d);
            assert AllDirections[..j] == AllDirections;
          }
        }
        var i := 0;
        while i < |quads|
          invariant 0 <= i <= |quads|
          invariant forall d :: d in culled
          invariant forall d :: d in culled ==> culled[d] == Facing(quads[..i], d)
        {
          var q := quads[i];
          assert quads[..i + 1][..i] == quads[..i];
          culled := culled[q.direction := culled[q.direction] + [q]];
          i := i + 1;
        }
        assert quads[..i] == quads;
      } else {
        unculled := unculled + quads;
      }
      culledQuads := culled;
      unculledQuads := unculled;
    }

    /** The quads to draw for a cull direction, or for no direction (always
        drawn): a culled part answers each direction with exactly the quads
        facing it and nothing unculled; an unculled part answers every
        direction with nothing and no direction with all its quads. */
    function GetQuads(direction: Option<Direction>): (r: seq<Quad>)
      requires Valid()
      reads this
      ensures direction.None? ==> r == (if useCullface then [] else quads)
      ensures direction.Some? ==> r == (if useCullface then Facing(quads, direction.value) else [])
    {
      if direction.None? then unculledQuads
      else if direction.value in culledQuads then culledQuads[direction.value]
      else []
    }

    /** Overlays are drawn without ambient occlusion. */
    function UseAmbientOcclusion(): (r: bool)
      ensures !r
    {
      false
    }

    /** The particle icon is the overlay sprite the part was built with. */
    function ParticleIcon(): (r: Sprite)
      ensures r == sprite
    {
      sprite
    }
  }

  /** Everything a part returns over the seven queries (no direction and each
      of the six) is its input, every quad exactly once, whichever way it was built. */
  lemma EveryQuadOnce(p: OverlayBlockModelPart)
    requires p.Valid()
    ensures multiset(p.GetQuads(None)) + AllQueried(p) == multiset(p.quads)
  {
    if p.useCullface {
      FacingPartitions(p.quads);
    }
  }

  ghost function AllQueried(p: OverlayBlockModelPart): multiset<Quad>
    requires p.Valid()
    reads p
  {
    multiset(p.GetQuads(Some(Down))) + multiset(p.GetQuads(Some(Up)))
      + multiset(p.GetQuads(Some(North))) + multiset(p.GetQuads(Some(South)))
      + multiset(p.GetQuads(Some(West))) + multiset(p.GetQuads(Some(East)))
  }
}
