/**
 * The state of GameRender as one value, and each of its operations as a
 * function from the state before to the state after. The GameRender class
 * is proved against these functions; the lemmas here are what the
 * pipeline promises about them.
 */
module RenderSpec {
  import opened Geometry
  import opened Viewport
  import opened Batching

  /** One shadow-casting occluder handed to the lighting pass. */
  datatype ShadowCaster = ShadowCaster(position: Vec2, radius: real)

  /**
   * The static fields of GameRender that the modelled operations read or
   * write: the render size and focus, the texture list, the batch table
   * (`layers[l][t]` is the batch of layer l and texture slot t), the shadow
   * casters of the frame, the draw counter, and the batch draws issued so
   * far.
   */
  datatype RenderState = RenderState(
    renderSize: Vec2u,
    focus: Vec2,
    textures: seq<Texture>,
    layers: seq<seq<Batch>>,
    casters: seq<ShadowCaster>,
    drawCalls: nat,
    draws: seq<Draw>)

  /**
   * Three layers, each holding the same number of batches, and never more
   * batches than texture slots (so `_textures[i]` exists for each batch i).
   */
  predicate WellFormed(p: RenderState) {
    && |p.layers| == LAYER_COUNT
    && (forall l :: 0 <= l < LAYER_COUNT ==> |p.layers[l]| == |p.layers[0]|)
    && |p.layers[0]| <= |p.textures|
  }

  /** The number of batches in each layer. */
  function BatchCount(p: RenderState): nat
    requires WellFormed(p)
  {
    |p.layers[0]|
  }

  /** Batch index and texture handle coincide: every texture slot has its batches. */
  predicate Synchronized(p: RenderState) {
    WellFormed(p) && BatchCount(p) == |p.textures|
  }

  /** Program start (every static field empty) followed by one `initialize`: focus at the origin and three empty layers. */
  function Initial(renderSize: Vec2u): (p: RenderState)
    ensures Synchronized(p) && BatchCount(p) == 0
    ensures p.focus == ORIGIN && p.renderSize == renderSize
    ensures p.drawCalls == 0 && p.casters == [] && p.draws == []
  {
    RenderState(renderSize, ORIGIN, [], seq(LAYER_COUNT, _ => []), [], 0, [])
  }

  /** setFocus: the focus is replaced and nothing else changes. */
  function Focused(p: RenderState, focus: Vec2): (r: RenderState)
    ensures r.focus == focus
    ensures r.(focus := p.focus) == p
  {
    p.(focus := focus)
  }

  /** Every batch of every layer emptied, the shape of the table kept. */
  function ClearedLayers(layers: seq<seq<Batch>>): (r: seq<seq<Batch>>)
    ensures |r| == |layers|
    ensures forall l :: 0 <= l < |r| ==> |r[l]| == |layers[l]|
    ensures forall l, i :: 0 <= l < |r| && 0 <= i < |r[l]| ==> r[l][i] == []
  {
    seq(|layers|, l requires 0 <= l < |layers| => EmptyBatches(|layers[l]|))
  }

  /**
   * clear: the draw counter is reset, every batch of all three layers
   * (ground included) is emptied without removing it, and the shadow
   * casters are dropped. Textures, focus and the draws already issued are
   * kept.
   */
  function Cleared(p: RenderState): (r: RenderState)
    ensures r.drawCalls == 0 && r.casters == []
    ensures |r.layers| == |p.layers|
    ensures forall l :: 0 <= l < |r.layers| ==> |r.layers[l]| == |p.layers[l]|
    ensures forall l, i :: 0 <= l < |r.layers| && 0 <= i < |r.layers[l]| ==> r.layers[l][i] == []
    ensures r.(layers := p.layers, casters := p.casters, drawCalls := p.drawCalls) == p
    ensures WellFormed(p) ==> WellFormed(r) && BatchCount(r) == BatchCount(p)
  {
    p.(drawCalls := 0, layers := ClearedLayers(p.layers), casters := [])
  }

  /** The source's precondition of addQuad: an existing layer, an existing batch, four vertices. */
  predicate CanAddQuad(p: RenderState, t: nat, quad: seq<Vertex>, layer: RenderLayer) {
    layer.Index() < |p.layers| && t < |p.layers[layer.Index()]| && |quad| >= 4
  }

  /**
   * addQuad: the first four vertices of the quad are appended, in order, at
   * the end of batch (layer, t); every other batch and every other field is
   * unchanged.
   */
  function QuadAdded(p: RenderState, t: nat, quad: seq<Vertex>, layer: RenderLayer): (r: RenderState)
    requires CanAddQuad(p, t, quad, layer)
    ensures |r.layers| == |p.layers|
    ensures forall l :: 0 <= l < |r.layers| ==> |r.layers[l]| == |p.layers[l]|
    ensures var l, before := layer.Index(), p.layers[layer.Index()][t];
      && |r.layers[l][t]| == |before| + 4
      && r.layers[l][t][..|before|] == before
      && (forall k :: 0 <= k < 4 ==> r.layers[l][t][|before| + k] == quad[k])
    ensures forall l, i :: 0 <= l < |r.layers| && 0 <= i < |r.layers[l]| && (l, i) != (layer.Index(), t)
              ==> r.layers[l][i] == p.layers[l][i]
    ensures r.(layers := p.layers) == p
    ensures WellFormed(p) ==> WellFormed(r) && BatchCount(r) == BatchCount(p)
  {
    var l := layer.Index();
    var batch := p.layers[l][t];
    var batch' := batch + [quad[0], quad[1], quad[2], quad[3]];
    p.(layers := p.layers[l := p.layers[l][t := batch']])
  }

  /** addShadowCaster: exactly one caster is appended at the end and nothing else changes. */
  function CasterAdded(p: RenderState, position: Vec2, radius: real): (r: RenderState)
    ensures |r.casters| == |p.casters| + 1
    ensures r.casters[..|p.casters|] == p.casters
    ensures r.casters[|p.casters|] == ShadowCaster(position, radius)
    ensures r.(casters := p.casters) == p
  {
    p.(casters := p.casters + [ShadowCaster(position, radius)])
  }

  /**
   * registerTexture: one texture slot is always appended and its index, the
   * old slot count, is returned. Only when the file loaded does the slot
   * hold the texture (with its repeat mode) and does each of the three
   * layers get one more, empty, batch; otherwise the slot stays empty and
   * the batch table is untouched.
   */
  function Registered(p: RenderState, file: string, repeated: bool, loaded: bool): (r: (RenderState, nat))
    requires |p.layers| == LAYER_COUNT
    ensures r.1 == |p.textures|
    ensures |r.0.textures| == |p.textures| + 1 && r.0.textures[..|p.textures|] == p.textures
    ensures r.0.textures[r.1] == if loaded then Loaded(file, repeated) else Unloaded
    ensures loaded ==> |r.0.layers| == |p.layers|
                       && forall l :: 0 <= l < |p.layers| ==> r.0.layers[l] == p.layers[l] + [[]]
    ensures !loaded ==> r.0.layers == p.layers
    ensures r.0.(textures := p.textures, layers := p.layers) == p
  {
    var slot := if loaded then Loaded(file, repeated) else Unloaded;
    var textures := p.textures + [slot];
    var layers :=
      if loaded then
        p.layers[Render.Index() := p.layers[Render.Index()] + [[]]]
                [Ground.Index() := p.layers[Ground.Index()] + [[]]]
                [Bloom.Index() := p.layers[Bloom.Index()] + [[]]]
      else p.layers;
    (p.(textures := textures, layers := layers), |textures| - 1)
  }

  /**
   * `_renderVertices` over one layer into `target`, with the render states'
   * translation `offset`: the counter grows by the number of non-empty
   * batches, the draws of that layer are issued, and nothing else changes
   * (the batches are only read).
   */
  function LayerRendered(p: RenderState, layer: RenderLayer, target: Target, offset: Vec2): (r: RenderState)
    requires WellFormed(p)
    ensures r.drawCalls == p.drawCalls + CountNonEmpty(p.layers[layer.Index()])
    ensures r.draws == p.draws + Draws(target, p.layers[layer.Index()], p.textures, offset)
    ensures r.drawCalls - p.drawCalls == |r.draws| - |p.draws|
    ensures r.(drawCalls := p.drawCalls, draws := p.draws) == p
  {
    var batches := p.layers[layer.Index()];
    p.(drawCalls := p.drawCalls + CountNonEmpty(batches),
       draws := p.draws + Draws(target, batches, p.textures, offset))
  }

  /**
   * display: renderGround draws the ground batches into the ground surface
   * with untranslated render states, then the main-layer batches are drawn
   * into the scene surface translated by the screen offset. The bloom
   * layer is not drawn.
   */
  function Displayed(p: RenderState): (r: RenderState)
    requires WellFormed(p)
    ensures r.drawCalls == p.drawCalls + CountNonEmpty(p.layers[Ground.Index()])
                                       + CountNonEmpty(p.layers[Render.Index()])
    ensures r.draws == p.draws
                     + Draws(GroundSurface, p.layers[Ground.Index()], p.textures, ORIGIN)
                     + Draws(SceneSurface, p.layers[Render.Index()], p.textures,
                             ScreenOffset(p.renderSize, p.focus))
    ensures r.(drawCalls := p.drawCalls, draws := p.draws) == p
  {
    var grounded := LayerRendered(p, Ground, GroundSurface, ORIGIN);
    LayerRendered(grounded, Render, SceneSurface, ScreenOffset(p.renderSize, p.focus))
  }

  // ---------------------------------------------------------------------
  // The batch table and the texture list
  // ---------------------------------------------------------------------

  /**
   * Registration keeps the three layers equally long and never lets them
   * outgrow the texture list; a successful load adds one batch per layer,
   * a failed one none.
   */
  lemma RegisteredWellFormed(p: RenderState, file: string, repeated: bool, loaded: bool)
    requires WellFormed(p)
    ensures var r := Registered(p, file, repeated, loaded).0;
      && WellFormed(r)
      && BatchCount(r) == BatchCount(p) + (if loaded then 1 else 0)
  {
  }

  /** While every load has succeeded, the handle returned is the index of the new batches. */
  lemma RegisteredHandleIsBatchIndex(p: RenderState, file: string, repeated: bool)
    requires Synchronized(p)
    ensures var (r, handle) := Registered(p, file, repeated, true);
      Synchronized(r) && handle == BatchCount(r) - 1
  {
  }

  /**
   * A failed load still hands out a handle, but no batch exists at that
   * index, so addQuad with it is outside the source's precondition.
   */
  lemma FailedLoadHandleHasNoBatch(p: RenderState, file: string, repeated: bool, t: nat,
                                   quad: seq<Vertex>, layer: RenderLayer)
    requires WellFormed(p)
    ensures var (r, handle) := Registered(p, file, repeated, false);
      && handle >= BatchCount(r)
      && !Synchronized(r)
      && !CanAddQuad(r, handle, quad, layer)
  {
  }

  /**
   * Once a load has failed the mismatch is permanent: the surplus of texture
   * slots over batches never shrinks, whatever later loads do.
   */
  lemma MisalignmentNeverHeals(p: RenderState, file: string, repeated: bool, loaded: bool)
    requires WellFormed(p)
    ensures var r := Registered(p, file, repeated, loaded).0;
      WellFormed(r) && |r.textures| - BatchCount(r) == |p.textures| - BatchCount(p)
                                                     + (if loaded then 0 else 1)
  {
  }

  /**
   * The concrete mismatch: a failed load followed by a successful one
   * returns handle 1 for the loaded texture, while its batch sits at index 0
   * and is drawn bound to the empty slot 0.
   */
  lemma FailedThenLoadedDrawsWithEmptyTexture(renderSize: Vec2u, a: string, b: string, v: Vertex)
    ensures
      var (p1, ha) := Registered(Initial(renderSize), a, false, false);
      var (p2, hb) := Registered(p1, b, false, true);
      && ha == 0 && hb == 1
      && WellFormed(p2) && BatchCount(p2) == 1
      && !CanAddQuad(p2, hb, [v, v, v, v], Render)
      && CanAddQuad(p2, 0, [v, v, v, v], Render)
      && Displayed(QuadAdded(p2, 0, [v, v, v, v], Render)).draws
         == [Draw(SceneSurface, Unloaded, [v, v, v, v], ScreenOffset(renderSize, ORIGIN))]
  {
  }

  // ---------------------------------------------------------------------
  // Frames
  // ---------------------------------------------------------------------

  /** Frame isolation: whatever quads were added, clear leaves the same table as before them. */
  lemma ClearForgetsQuads(p: RenderState, t: nat, quad: seq<Vertex>, layer: RenderLayer)
    requires CanAddQuad(p, t, quad, layer)
    ensures Cleared(QuadAdded(p, t, quad, layer)) == Cleared(p)
  {
  }

  /** clear is idempotent. */
  lemma ClearIdempotent(p: RenderState)
    ensures Cleared(Cleared(p)) == Cleared(p)
  {
  }

  /** A display straight after clear issues no draw and leaves the counter at zero. */
  lemma DisplayAfterClearDrawsNothing(p: RenderState)
    requires WellFormed(p)
    ensures Displayed(Cleared(p)).drawCalls == 0
    ensures Displayed(Cleared(p)).draws == p.draws
  {
    var c := Cleared(p);
    CountNonEmptyZero(c.layers[Ground.Index()]);
    CountNonEmptyZero(c.layers[Render.Index()]);
  }

  /**
   * Adding a quad raises the next display's count by one exactly when it
   * fills a ground or main batch that was empty; more quads in a batch
   * that already holds some cost nothing.
   */
  lemma QuadAddedDrawCost(p: RenderState, t: nat, quad: seq<Vertex>, layer: RenderLayer)
    requires WellFormed(p) && CanAddQuad(p, t, quad, layer)
    ensures Displayed(QuadAdded(p, t, quad, layer)).drawCalls
         == Displayed(p).drawCalls
            + (if layer != Bloom && p.layers[layer.Index()][t] == [] then 1 else 0)
  {
    var r := QuadAdded(p, t, quad, layer);
    var l := layer.Index();
    assert r.layers[l] == p.layers[l][t := r.layers[l][t]];
    CountNonEmptyUpdate(p.layers[l], t, r.layers[l][t]);
    forall k | 0 <= k < LAYER_COUNT && k != l ensures r.layers[k] == p.layers[k] {
    }
  }

  /** Bloom batches are never drawn: display does the same whatever the bloom layer holds. */
  lemma DisplayIgnoresBloom(p: RenderState, bloom: seq<Batch>)
    requires WellFormed(p) && |bloom| == BatchCount(p)
    ensures var q := p.(layers := p.layers[Bloom.Index() := bloom]);
      WellFormed(q) && Displayed(q) == Displayed(p).(layers := q.layers)
  {
  }

  /**
   * Every batch draw of a display lands on the ground surface untranslated
   * or on the scene surface translated by the current screen offset, and
   * every non-empty main-layer batch i is drawn with texture slot i.
   */
  lemma DisplayedDrawsUseOffset(p: RenderState, i: nat)
    requires WellFormed(p)
    ensures var r := Displayed(p);
      forall k :: |p.draws| <= k < |r.draws| ==>
        (r.draws[k].target == GroundSurface && r.draws[k].offset == ORIGIN)
        || (r.draws[k].target == SceneSurface && r.draws[k].offset == ScreenOffset(p.renderSize, p.focus))
    ensures i < BatchCount(p) && p.layers[Render.Index()][i] != [] ==>
      Draw(SceneSurface, p.textures[i], p.layers[Render.Index()][i], ScreenOffset(p.renderSize, p.focus))
        in Displayed(p).draws
  {
    var r := Displayed(p);
    var off := ScreenOffset(p.renderSize, p.focus);
    var g := Draws(GroundSurface, p.layers[Ground.Index()], p.textures, ORIGIN);
    var s := Draws(SceneSurface, p.layers[Render.Index()], p.textures, off);
    assert r.draws == p.draws + g + s;
    forall k | |p.draws| <= k < |r.draws|
      ensures (r.draws[k].target == GroundSurface && r.draws[k].offset == ORIGIN)
           || (r.draws[k].target == SceneSurface && r.draws[k].offset == off)
    {
      if k < |p.draws| + |g| {
        assert r.draws[k] == g[k - |p.draws|];
      } else {
        assert r.draws[k] == s[k - |p.draws| - |g|];
      }
    }
    if i < BatchCount(p) && p.layers[Render.Index()][i] != [] {
      DrawPairsBatchWithTexture(SceneSurface, p.layers[Render.Index()], p.textures, off, i);
      var j := CountNonEmpty(p.layers[Render.Index()][..i]);
      assert r.draws[|p.draws| + |g| + j] == s[j];
    }
  }

  /**
   * Basic batching: two textures loaded, one main-layer quad with the first
   * and two with the second; after clear and display there are two draws,
   * the first batch holds one quad and the second two.
   */
  lemma BasicBatching(p: RenderState, a: string, b: string, q1: seq<Vertex>, q2: seq<Vertex>, q3: seq<Vertex>)
    requires Synchronized(p) && |q1| == 4 && |q2| == 4 && |q3| == 4
    ensures
      var (pa, ha) := Registered(Cleared(p), a, false, true);
      var (pb, hb) := Registered(pa, b, false, true);
      && CanAddQuad(pb, ha, q1, Render)
      && CanAddQuad(pb, hb, q2, Render)
      && var r := QuadAdded(QuadAdded(QuadAdded(pb, ha, q1, Render), hb, q2, Render), hb, q3, Render);
      && |r.layers[Render.Index()][ha]| == 4
      && |r.layers[Render.Index()][hb]| == 8
      && Displayed(r).drawCalls == 2
  {
    var c := Cleared(p);
    var (pa, ha) := Registered(c, a, false, true);
    var (pb, hb) := Registered(pa, b, false, true);
    RegisteredHandleIsBatchIndex(c, a, false);
    RegisteredHandleIsBatchIndex(pa, b, false);
    var r1 := QuadAdded(pb, ha, q1, Render);
    var r2 := QuadAdded(r1, hb, q2, Render);
    var r := QuadAdded(r2, hb, q3, Render);
    DisplayAfterClearDrawsNothing(pb);
    assert Cleared(pb) == pb.(drawCalls := 0) by {
      forall l | 0 <= l < LAYER_COUNT ensures Cleared(pb).layers[l] == pb.layers[l] {
        assert forall i :: 0 <= i < |pb.layers[l]| ==> pb.layers[l][i] == [];
      }
    }
    QuadAddedDrawCost(pb, ha, q1, Render);
    QuadAddedDrawCost(r1, hb, q2, Render);
    QuadAddedDrawCost(r2, hb, q3, Render);
  }
}
