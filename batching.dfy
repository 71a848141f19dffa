/**
 * The values the layered batch table holds, and the functions that say
 * what one batch-drawing pass over a layer issues.
 */
module Batching {
  import opened Geometry

  /** One sf::Vertex; its contents are never inspected by the pipeline. */
  datatype Vertex = Vertex(position: Vec2, texCoords: Vec2, color: nat)

  /**
   * One slot of the texture list. A slot whose file failed to load keeps the
   * default-constructed, empty texture; only a loaded one has its repeat
   * mode set.
   */
  datatype Texture = Unloaded | Loaded(file: string, repeated: bool)

  /** The vertices accumulated for one (layer, texture) pair in the current frame. */
  type Batch = seq<Vertex>

  /** The three render layers; `Index` is the position of a layer in the batch table. */
  datatype RenderLayer = Ground | Render | Bloom {
    function Index(): (i: nat)
      ensures i < LAYER_COUNT
    {
      match this
      case Ground => 0
      case Render => 1
      case Bloom => 2
    }
  }

  /** `_vertices.resize(3)` */
  const LAYER_COUNT: nat := 3

  /** The two off-screen surfaces that batches are drawn into. */
  datatype Target = GroundSurface | SceneSurface

  /**
   * One `target.draw(vertices, states)` of a batch: the surface, the texture
   * bound in the render states, the vertices and the translation of the
   * render states' transform.
   */
  datatype Draw = Draw(target: Target, texture: Texture, vertices: Batch, offset: Vec2)

  /** A list of `n` batches that are all empty. */
  function EmptyBatches(n: nat): (r: seq<Batch>)
    ensures |r| == n
    ensures forall i :: 0 <= i < n ==> r[i] == []
  {
    seq(n, _ => [])
  }

  /** The number of batches holding at least one vertex. */
  function CountNonEmpty(batches: seq<Batch>): (n: nat)
    ensures n <= |batches|
    decreases |batches|
  {
    if batches == [] then 0
    else
      var last := |batches| - 1;
      CountNonEmpty(batches[..last]) + (if batches[last] == [] then 0 else 1)
  }

  /**
   * The draws that `_renderVertices` issues for one layer, in batch order:
   * every non-empty batch i, bound to texture i, and no empty batch.
   */
  function Draws(target: Target, batches: seq<Batch>, textures: seq<Texture>, offset: Vec2): (r: seq<Draw>)
    requires |batches| <= |textures|
    ensures |r| == CountNonEmpty(batches)
    ensures forall k :: 0 <= k < |r| ==>
              r[k].target == target && r[k].offset == offset && r[k].vertices != []
    decreases |batches|
  {
    if batches == [] then []
    else
      var last := |batches| - 1;
      Draws(target, batches[..last], textures, offset)
        + (if batches[last] == [] then [] else [Draw(target, textures[last], batches[last], offset)])
  }

  /** One more batch of the layer: at most one more draw, and only for a non-empty batch. */
  lemma DrawsStep(target: Target, batches: seq<Batch>, textures: seq<Texture>, offset: Vec2, i: nat)
    requires i < |batches| <= |textures|
    ensures CountNonEmpty(batches[..i + 1])
         == CountNonEmpty(batches[..i]) + (if batches[i] == [] then 0 else 1)
    ensures Draws(target, batches[..i + 1], textures, offset)
         == Draws(target, batches[..i], textures, offset)
            + (if batches[i] == [] then [] else [Draw(target, textures[i], batches[i], offset)])
  {
    assert batches[..i + 1][..i] == batches[..i];
  }

  /** No draw happens exactly when every batch of the layer is empty. */
  lemma {:induction false} CountNonEmptyZero(batches: seq<Batch>)
    ensures CountNonEmpty(batches) == 0 <==> forall i :: 0 <= i < |batches| ==> batches[i] == []
    decreases |batches|
  {
    if batches != [] {
      var last := |batches| - 1;
      CountNonEmptyZero(batches[..last]);
      assert forall i :: 0 <= i < last ==> batches[..last][i] == batches[i];
    }
  }

  /** Replacing one batch changes the count only through that batch's emptiness. */
  lemma {:induction false} CountNonEmptyUpdate(batches: seq<Batch>, t: nat, b: Batch)
    requires t < |batches|
    ensures CountNonEmpty(batches[t := b]) + (if batches[t] == [] then 0 else 1)
         == CountNonEmpty(batches) + (if b == [] then 0 else 1)
    decreases |batches|
  {
    var last := |batches| - 1;
    if t == last {
      assert batches[t := b][..last] == batches[..last];
    } else {
      assert batches[t := b][..last] == batches[..last][t := b];
      CountNonEmptyUpdate(batches[..last], t, b);
    }
  }

  /**
   * Pairing of batches with textures: every non-empty batch i is drawn, with
   * texture i, and it is the draw that comes after those of the non-empty
   * batches before it.
   */
  lemma {:induction false} DrawPairsBatchWithTexture(
    target: Target, batches: seq<Batch>, textures: seq<Texture>, offset: Vec2, i: nat)
    requires |batches| <= |textures|
    requires i < |batches| && batches[i] != []
    ensures CountNonEmpty(batches[..i]) < |Draws(target, batches, textures, offset)|
    ensures Draws(target, batches, textures, offset)[CountNonEmpty(batches[..i])]
         == Draw(target, textures[i], batches[i], offset)
    decreases |batches|
  {
    var last := |batches| - 1;
    if i < last {
      assert batches[..last][..i] == batches[..i];
      DrawPairsBatchWithTexture(target, batches[..last], textures, offset, i);
    }
  }
}
