/** A drawable piece of geometry as the render queue sees it, with the
    frame it was last seen in and the lights that affect it. */
module Renderable {
  import opened Wrappers
  import opened Light

  class Renderable {
    /** Fixed facts about the geometry, read by the render path. */
    const indexElementCount: nat
    const isVisible: bool
    const instancedMeshId: nat
    const instancedSubmeshId: nat

    var lastVisibleFrameId: nat
    var lights: seq<LightView>

    constructor (indices: nat, visible: bool, meshId: nat, submeshId: nat)
      ensures indexElementCount == indices && isVisible == visible
      ensures instancedMeshId == meshId && instancedSubmeshId == submeshId
      ensures lastVisibleFrameId == 0 && lights == []
      ensures IsVisibleInFrame(0)
    {
      indexElementCount := indices;
      isVisible := visible;
      instancedMeshId := meshId;
      instancedSubmeshId := submeshId;
      lastVisibleFrameId := 0;
      lights := [];
    }

    method UpdateLastVisibleFrameId(frameId: nat)
      modifies this`lastVisibleFrameId
      ensures forall g: nat :: IsVisibleInFrame(g) <==> g == frameId
      ensures lights == old(lights)
    {
      lastVisibleFrameId := frameId;
    }

    /** is_visible_in_frame: stamped with exactly this frame. */
    function IsVisibleInFrame(frameId: nat): bool
      reads this
    {
      frameId == lastVisibleFrameId
    }

    method SetAffectedByLights(ls: seq<LightView>)
      modifies this`lights
      ensures LightsAffectingThisFrame() == ls
      ensures lastVisibleFrameId == old(lastVisibleFrameId)
    {
      lights := ls;
    }

    function LightsAffectingThisFrame(): seq<LightView>
      reads this
    {
      lights
    }
  }
}
