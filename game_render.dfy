/**
 * GameRender's bookkeeping as an object: the process-wide static fields
 * become the fields of one GameRender, and each method is proved to move
 * the state exactly as the corresponding function of RenderSpec says.
 */
module GameRendering {
  import opened Geometry
  import opened Viewport
  import opened Batching
  import opened RenderSpec

  class GameRender {
    var renderSize: Vec2u
    var focus: Vec2
    var textures: seq<Texture>
    /** `_vertices[layer][textureID]` */
    var vertices: seq<seq<Batch>>
    var screenSpaceEntities: seq<ShadowCaster>
    var drawCalls: nat
    /** The batch draws issued into the off-screen surfaces, oldest first. */
    var draws: seq<Draw>

    /** The abstract value of the object. */
    function State(): RenderState
      reads this
    {
      RenderState(renderSize, focus, textures, vertices, screenSpaceEntities, drawCalls, draws)
    }

    predicate Valid()
      reads this
    {
      WellFormed(State())
    }

    /** Program start followed by one initialize: focus at the origin, the batch table resized to three layers. */
    constructor Initialize(renderSize: Vec2u)
      ensures Valid()
      ensures State() == Initial(renderSize)
    {
      this.renderSize := renderSize;
      focus := ORIGIN;
      textures := [];
      vertices := seq(LAYER_COUNT, _ => []);
      screenSpaceEntities := [];
      drawCalls := 0;
      draws := [];
    }

    method SetFocus(focus: Vec2)
      modifies this
      ensures State() == Focused(old(State()), focus)
    {
      this.focus := focus;
    }

    /** clear: every batch of every layer emptied in place, counter and casters reset. */
    method Clear()
      modifies this
      ensures State() == Cleared(old(State()))
      ensures old(Valid()) ==> Valid()
    {
      drawCalls := 0;
      var l := 0;
      while l < |vertices|
        invariant 0 <= l <= |vertices| == |old(vertices)|
        invariant forall k :: 0 <= k < |vertices| ==> |vertices[k]| == |old(vertices)[k]|
        invariant forall k, i :: 0 <= k < l && 0 <= i < |vertices[k]| ==> vertices[k][i] == []
        invariant forall k :: l <= k < |vertices| ==> vertices[k] == old(vertices)[k]
        invariant renderSize == old(renderSize) && focus == old(focus) && textures == old(textures)
        invariant screenSpaceEntities == old(screenSpaceEntities) && drawCalls == 0 && draws == old(draws)
      {
        var i := 0;
        while i < |vertices[l]|
          invariant l < |vertices| && 0 <= i <= |vertices[l]|
          invariant |vertices| == |old(vertices)|
          invariant forall k :: 0 <= k < |vertices| ==> |vertices[k]| == |old(vertices)[k]|
          invariant forall j :: 0 <= j < i ==> vertices[l][j] == []
          invariant forall k, j :: 0 <= k < l && 0 <= j < |vertices[k]| ==> vertices[k][j] == []
          invariant forall k :: l < k < |vertices| ==> vertices[k] == old(vertices)[k]
          invariant renderSize == old(renderSize) && focus == old(focus) && textures == old(textures)
          invariant screenSpaceEntities == old(screenSpaceEntities) && drawCalls == 0 && draws == old(draws)
        {
          vertices := vertices[l := vertices[l][i := []]];
          i := i + 1;
        }
        l := l + 1;
      }
      screenSpaceEntities := [];
      forall k | 0 <= k < |vertices| ensures vertices[k] == ClearedLayers(old(vertices))[k] {
        assert forall i :: 0 <= i < |vertices[k]| ==> vertices[k][i] == ClearedLayers(old(vertices))[k][i];
      }
    }

    /** addQuad: append quad[0..3] to batch (layer, textureID). */
    method AddQuad(textureID: nat, quad: seq<Vertex>, layer: RenderLayer)
      requires CanAddQuad(State(), textureID, quad, layer)
      modifies this
      ensures State() == QuadAdded(old(State()), textureID, quad, layer)
      ensures old(Valid()) ==> Valid()
    {
      var l := layer.Index();
      var va := vertices[l][textureID];
      va := va + [quad[0]];
      va := va + [quad[1]];
      va := va + [quad[2]];
      va := va + [quad[3]];
      assert va == vertices[l][textureID] + [quad[0], quad[1], quad[2], quad[3]];
      vertices := vertices[l := vertices[l][textureID := va]];
    }

    method AddShadowCaster(position: Vec2, radius: real)
      modifies this
      ensures State() == CasterAdded(old(State()), position, radius)
      ensures old(Valid()) ==> Valid()
    {
      screenSpaceEntities := screenSpaceEntities + [ShadowCaster(position, radius)];
    }

    /**
     * registerTexture: `loaded` is the outcome of loading `filename`, which
     * this model does not perform.
     */
    method RegisterTexture(filename: string, isRepeated: bool, loaded: bool) returns (id: nat)
      requires Valid()
      modifies this
      ensures (State(), id) == Registered(old(State()), filename, isRepeated, loaded)
      ensures Valid()
    {
      textures := textures + [Unloaded];
      if loaded {
        textures := textures[|textures| - 1 := Loaded(filename, isRepeated)];
        vertices := vertices[Render.Index() := vertices[Render.Index()] + [[]]];
        vertices := vertices[Ground.Index() := vertices[Ground.Index()] + [[]]];
        vertices := vertices[Bloom.Index() := vertices[Bloom.Index()] + [[]]];
      }
      id := |textures| - 1;
      assert textures == old(textures) + [if loaded then Loaded(filename, isRepeated) else Unloaded];
      RegisteredWellFormed(old(State()), filename, isRepeated, loaded);
    }

    /**
     * `_renderVertices`: one draw, bound to texture i, for each non-empty
     * batch i of `layer`, each counted once.
     */
    method RenderVertices(layer: RenderLayer, target: Target, offset: Vec2)
      requires Valid()
      modifies this
      ensures State() == LayerRendered(old(State()), layer, target, offset)
      ensures Valid()
    {
      var batches := vertices[layer.Index()];
      var size := |batches|;
      assert size <= |textures|;
      for i := 0 to size
        invariant renderSize == old(renderSize) && focus == old(focus) && textures == old(textures)
        invariant vertices == old(vertices) && screenSpaceEntities == old(screenSpaceEntities)
        invariant drawCalls == old(drawCalls) + CountNonEmpty(batches[..i])
        invariant draws == old(draws) + Draws(target, batches[..i], textures, offset)
      {
        DrawsStep(target, batches, textures, offset, i);
        if batches[i] != [] {
          draws := draws + [Draw(target, textures[i], batches[i], offset)];
          drawCalls := drawCalls + 1;
        }
      }
      assert batches[..size] == batches;
    }

    /** renderGround: the ground batches drawn into the ground surface with untranslated states. */
    method RenderGround()
      requires Valid()
      modifies this
      ensures State() == LayerRendered(old(State()), Ground, GroundSurface, ORIGIN)
      ensures Valid()
    {
      RenderVertices(Ground, GroundSurface, ORIGIN);
    }

    /** display: ground first, then the main layer translated by the current screen offset. */
    method Display()
      requires Valid()
      modifies this
      ensures State() == Displayed(old(State()))
      ensures Valid()
    {
      var states := ScreenOffset(renderSize, focus);
      RenderGround();
      RenderVertices(Render, SceneSurface, states);
    }
  }
}
