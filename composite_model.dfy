/**
 * The wrapped block-state model: the host's model for a block state with
 * overlay parts drawn after it. Wrapping may nest; every layer draws its
 * inner model first and its own overlays last.
 */
module CompositeModel {
  import opened Types
  import opened ModelPart

  /** A part a model contributes: one of the host's own, by identity, or an overlay part. */
  datatype Part = HostPart(id: nat) | Overlay(part: OverlayBlockModelPart)

  /** A block-state model: a host model with its parts and particle icon, or
      a composite of an original model and overlay parts. */
  datatype BlockStateModel =
    | Baked(parts: seq<Part>, icon: Sprite)
    | Composite(original: BlockStateModel, overlayParts: seq<Part>)

  /** The parts a model contributes, in drawing order. */
  function PartsOf(m: BlockStateModel): seq<Part>
  {
    match m
    case Baked(parts, _) => parts
    case Composite(original, overlays) => PartsOf(original) + overlays
  }

  /** The host model at the bottom of the wrapping. */
  function Innermost(m: BlockStateModel): (r: BlockStateModel)
    ensures r.Baked?
  {
    match m
    case Baked(_, _) => m
    case Composite(original, _) => Innermost(original)
  }

  /** All overlay parts of the wrapping, innermost layer first. */
  function AllOverlays(m: BlockStateModel): seq<Part>
  {
    match m
    case Baked(_, _) => []
    case Composite(original, overlays) => AllOverlays(original) + overlays
  }

  /** However deep the wrapping, a model draws the host's parts first and then
      every layer's overlays, inner layers before outer ones. */
  lemma {:induction false} HostPartsComeFirst(m: BlockStateModel)
    ensures PartsOf(m) == Innermost(m).parts + AllOverlays(m)
  {
    match m
    case Baked(_, _) =>
    case Composite(original, overlays) =>
      HostPartsComeFirst(original);
  }

  /** The caller's part list, filled in place. */
  class PartList {
    var parts: seq<Part>

    constructor ()
      ensures parts == []
    {
      parts := [];
    }
  }

  /** Appends a model's parts to the caller's list: the original model's
      parts, then the overlay parts; what was already in the list stays in
      front, untouched. */
  method CollectParts(m: BlockStateModel, out: PartList)
    modifies out
    ensures out.parts == old(out.parts) + PartsOf(m)
    ensures old(out.parts) <= out.parts
  {
    match m
    case Baked(parts, _) =>
      out.parts := out.parts + parts;
    case Composite(original, overlays) =>
      CollectParts(original, out);
      out.parts := out.parts + overlays;
  }

  /** The particle icon is delegated down to the host model's. */
  function ParticleIcon(m: BlockStateModel): (r: Sprite)
    ensures r == Innermost(m).icon
  {
    match m
    case Baked(_, icon) => icon
    case Composite(original, _) => ParticleIcon(original)
  }
}
