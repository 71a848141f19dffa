# ZombieV render bookkeeping and AK ammunition, in Dafny

This project models two small stateful cores of the ZombieV top-down shooter.

**GameRender.** The render pipeline's layered batch table has these parts:

- a list of textures;
- three render layers (ground, main, bloom), each holding one vertex batch per successfully loaded texture, and never more batches than texture slots;
- the shadow casters of the current frame;
- a draw-call counter;
- the camera focus, with the render-target size.

Each frame the game calls `clear`, then `addQuad` and `addShadowCaster`, then `display`. `display` draws every non-empty ground batch into the ground surface and every non-empty main batch into the scene surface, and counts one draw per batch drawn. `registerTexture` appends a texture slot. Only when the file loads does it also append one empty batch to each layer. The culling test `isVisible` is a strict rectangular test around the focus.

The model has three layers:

- module `RenderSpec` holds the whole state as one value (`RenderState`) and each operation as a function;
  `Initial` and the constructor `GameRender.Initialize` stand for program start (all static fields empty) followed by one `initialize`; a second `initialize`, which would keep the existing textures and batches, is not modelled;
- class `GameRendering.GameRender` holds the same state as fields and updates them in place, with the source's loops;
- each method of the class is proved to produce exactly what its `RenderSpec` function says.

The lemmas of `RenderSpec`, `Batching` and `Viewport` state what the pipeline guarantees:

- the three layers keep equal length;
- batch i is drawn with texture i;
- `clear` forgets the frame's quads;
- the bloom layer is never drawn;
- each display raises the draw count by the number of non-empty ground and main batches.

Batch draws are recorded in a `draws` log. Each entry holds the surface, the bound texture, the vertices and the translation of the render states. This log stands for the effect of SFML's `draw`.

The model follows the code in two places where a reader might expect otherwise:

- Although the ground surface is persistent, `clear` empties the batches of all three layers, the ground layer included (src/System/GameRender.cpp:46-49).
- Although a texture handle is meant to index the batches, a failed load still appends a texture slot and returns its index, but it appends no batches (src/System/GameRender.cpp:74, 86-91). After one failure, handle i and batch i no longer refer to the same texture. The model proves this rather than hiding it:
  - the handle of a failed load has no batch (`FailedLoadHandleHasNoBatch`);
  - the gap never closes (`MisalignmentNeverHeals`);
  - after a failure and a success, the handle returned is 1, which has no batch; the batch that this load created sits at index 0 and is drawn bound to the empty slot 0 (`FailedThenLoadedDrawsWithEmptyTexture`).

**AK.** The rifle keeps four values: a magazine size, the rounds in the magazine, the rounds in reserve, and a recoil in [0, 1].

- `fire` spends a round and raises the recoil by 0.2, capped at 1, but only when the weapon is ready.
- `reload` tops up the magazine from the reserve.
- `update` lowers the recoil by the frame time, floored at 0.

Readiness comes from the `Weapon` base class, which is not part of this model, so it enters as a parameter. `reload` is modelled with the source's machine arithmetic:

- the rounds needed are a `size_t`, which wraps modulo 2^64;
- the rounds moved are held in an `int`;
- the reserve is a `size_t`, since `std::min` needs both of its arguments to have one type.

Module `Weapons` holds the pure functions, their lemmas and the class `AK`.

Coordinates and recoil are `real`. The render size is a pair of naturals, halved exactly. Two configuration constants are not part of this model, because Config.hpp is not: `CELL_SIZE` enters as the parameter `cellSize`, and the frame time `DT` as the parameter `dt`. The `RenderLayer` enum is declared in GameRender.hpp, which is not part of this model either. The model takes GROUND, RENDER, BLOOM as indices 0, 1, 2. No stated property depends on that order.

## Model

| member | source | states |
|---|---|---|
| Viewport.ScreenOffset | src/System/GameRender.cpp:141-145 | the offset is half the render size minus the focus: it carries the focus onto the centre of the render target |
| Viewport.IsVisible | src/System/GameRender.cpp:180-189 | visible iff the point's screen position lies strictly inside the render target enlarged by the radius on every side (both directions) |
| Viewport.IsEntityVisible | src/System/GameRender.cpp:167-178 | the entity test is the point test on its coordinate with radius 2*CELL_SIZE |
| Viewport.MarginIsExclusive | src/System/GameRender.cpp:188 | a point exactly on the margin on either axis is not visible |
| Viewport.VisibleMonotoneInRadius | src/System/GameRender.cpp:188 | a larger radius never culls a point a smaller one keeps |
| Viewport.FocusVisible | src/System/GameRender.cpp:182-188 | the focus is visible iff half the render size plus the radius is positive on both axes |
| Viewport.CullingMarginExample | src/System/GameRender.cpp:180-189 | with half-width 100 and margin 16, offset 115 is visible and offsets 116 and 117 are not |
| Batching.CountNonEmpty | src/System/GameRender.cpp:126-135 | the number of draws of a layer never exceeds its number of batches |
| Batching.Draws | src/System/GameRender.cpp:124-136 | `_renderVertices` issues one draw per non-empty batch, into the given surface with the given translation, and no draw of an empty batch |
| Batching.DrawsStep | src/System/GameRender.cpp:127-135 | one loop iteration adds one draw, of batch i with texture i, exactly when batch i is non-empty |
| Batching.CountNonEmptyZero | src/System/GameRender.cpp:129 | no draw happens iff every batch of the layer is empty (both directions) |
| Batching.CountNonEmptyUpdate | src/System/GameRender.cpp:129-133 | replacing one batch changes the draw count only through that batch's emptiness |
| Batching.DrawPairsBatchWithTexture | src/System/GameRender.cpp:129-133 | every non-empty batch i is drawn, bound to texture i, right after the draws of the non-empty batches before it |
| RenderSpec.Initial | src/System/GameRender.cpp:21-32 | after initialize: focus at the origin, three empty layers, no textures, counter zero; batch and texture counts agree |
| RenderSpec.Focused | src/System/GameRender.cpp:37-40 | setFocus replaces the focus and changes nothing else |
| RenderSpec.ClearedLayers | src/System/GameRender.cpp:46-49 | emptying every batch keeps the number of layers and of batches per layer |
| RenderSpec.Cleared | src/System/GameRender.cpp:42-54 | clear: counter 0, every batch of every layer (ground included) empty, batch counts unchanged, casters empty, textures, focus and issued draws kept, invariant kept |
| RenderSpec.QuadAdded | src/System/GameRender.cpp:57-64 | quad[0..3] appended in order at the end of batch (layer, t); every other batch and field unchanged; batch counts unchanged |
| RenderSpec.CasterAdded | src/System/GameRender.cpp:66-69 | exactly one caster appended at the end; nothing else changes |
| RenderSpec.Registered | src/System/GameRender.cpp:72-92 | exactly one texture slot is always appended and the old slot count returned; on a successful load the slot holds the texture with its repeat flag and each layer gains one empty batch; on a failed load the slot is empty and the layers are unchanged |
| RenderSpec.LayerRendered | src/System/GameRender.cpp:124-136 | the counter rises by the number of non-empty batches, exactly as many draws are logged, and the batches are not modified |
| RenderSpec.Displayed | src/System/GameRender.cpp:139-164 | the counter rises by the non-empty ground plus non-empty main batches; the ground draws go untranslated to the ground surface, then the main draws go to the scene surface translated by the screen offset; nothing else changes |
| RenderSpec.RegisteredWellFormed | src/System/GameRender.cpp:76-89 | registration keeps the three layers equally long and no longer than the texture list; a successful load adds one batch per layer, a failed load none |
| RenderSpec.RegisteredHandleIsBatchIndex | src/System/GameRender.cpp:76-91 | while all loads have succeeded, the returned handle is the index of the new batches |
| RenderSpec.FailedLoadHandleHasNoBatch | src/System/GameRender.cpp:86-91 | after a failed load the returned handle is not a batch index, so addQuad with it is outside addQuad's precondition |
| RenderSpec.MisalignmentNeverHeals | src/System/GameRender.cpp:74-91 | the surplus of texture slots over batches grows by one per failed load and never shrinks |
| RenderSpec.FailedThenLoadedDrawsWithEmptyTexture | src/System/GameRender.cpp:72-92 | a failed load then a successful one hands out handle 1, while the only batch is at index 0 and is drawn bound to the empty slot 0 |
| RenderSpec.ClearForgetsQuads | src/System/GameRender.cpp:46-49 | clear after addQuad gives the same state as clear alone |
| RenderSpec.ClearIdempotent | src/System/GameRender.cpp:42-54 | clearing twice is clearing once |
| RenderSpec.DisplayAfterClearDrawsNothing | src/System/GameRender.cpp:151-153 | a display right after clear issues no draw and leaves the counter at 0 |
| RenderSpec.QuadAddedDrawCost | src/System/GameRender.cpp:57-64 | adding a quad raises the next display's count by one exactly when it fills an empty ground or main batch |
| RenderSpec.DisplayIgnoresBloom | src/System/GameRender.cpp:151-153 | display's outcome does not depend on the bloom layer's contents |
| RenderSpec.DisplayedDrawsUseOffset | src/System/GameRender.cpp:141-153 | every draw of a display is either untranslated on the ground surface or on the scene surface at the current screen offset; each non-empty main batch i is drawn with texture i |
| RenderSpec.BasicBatching | src/System/GameRender.cpp:57-64 | two loaded textures, one main quad with the first and two with the second, then display: batches of 4 and 8 vertices and 2 draws |
| GameRendering.GameRender.Initialize | src/System/GameRender.cpp:21-35 | the constructor yields the initial state |
| GameRendering.GameRender.SetFocus | src/System/GameRender.cpp:37-40 | moves the object's state as `Focused` |
| GameRendering.GameRender.Clear | src/System/GameRender.cpp:42-54 | the nested loop empties every batch in place; the new state is `Cleared` of the old state |
| GameRendering.GameRender.AddQuad | src/System/GameRender.cpp:57-64 | the new state is `QuadAdded` of the old state |
| GameRendering.GameRender.AddShadowCaster | src/System/GameRender.cpp:66-69 | the new state is `CasterAdded` of the old state |
| GameRendering.GameRender.RegisterTexture | src/System/GameRender.cpp:72-92 | new state and returned handle are `Registered` of the old state and the load outcome; the invariant is kept |
| GameRendering.GameRender.RenderVertices | src/System/GameRender.cpp:124-136 | the loop counts and logs one draw per non-empty batch; the new state is `LayerRendered` |
| GameRendering.GameRender.RenderGround | src/System/GameRender.cpp:206-209 | the ground layer is rendered into the ground surface with untranslated states |
| GameRendering.GameRender.Display | src/System/GameRender.cpp:139-153 | the new state is `Displayed` of the old state |
| Weapons.RaisedRecoil | src/Weapons/AK.cpp:80-81 | the raised recoil is the smaller of recoil + 0.2 and 1 |
| Weapons.LoweredRecoil | src/Weapons/AK.cpp:101-104 | the lowered recoil is the larger of recoil − dt and 0 |
| Weapons.Fired | src/Weapons/AK.cpp:41-87 | returns exactly the readiness; not ready: nothing changes; ready: current − 1, reserve and magazine size unchanged, recoil raised; the recoil bound is kept |
| Weapons.Reloaded | src/Weapons/AK.cpp:89-96 | current + reserve is conserved; a magazine that was not over-full ends at most full, and full unless the reserve ran dry; the invariant is kept |
| Weapons.Updated | src/Weapons/AK.cpp:98-105 | only the recoil changes; it does not grow and stays in [0, 1] when dt ≥ 0 |
| Weapons.ReloadIdempotent | src/Weapons/AK.cpp:89-96 | a second reload changes nothing |
| Weapons.FreshNeedsNoReload | src/Weapons/AK.cpp:11-14 | a fresh AK satisfies the invariant and a reload leaves it unchanged |
| Weapons.ShotThenReload | src/Weapons/AK.cpp:89-96 | firing one shot from a full magazine and reloading costs exactly one reserve round |
| Weapons.OverfullReloadDrainsReserve | src/Weapons/AK.cpp:91-92 | through the `size_t` wrap, reloading an over-full magazine moves the whole reserve in |
| Weapons.RunConservesRounds | src/Weapons/AK.cpp:41-105 | over any sequence of fire/reload/update: the invariant holds, the magazine size is fixed, and rounds in magazine + reserve + shots fired are constant |
| Weapons.AK.constructor | src/Weapons/AK.cpp:9-14 | a new AK holds magazine size 30, 30 rounds loaded, 1000 in reserve and recoil 0 |
| Weapons.AK.Fire | src/Weapons/AK.cpp:41-87 | new state and result are `Fired` of the old state and the readiness |
| Weapons.AK.Reload | src/Weapons/AK.cpp:89-96 | the new state is `Reloaded` of the old state |
| Weapons.AK.Update | src/Weapons/AK.cpp:98-105 | the new state is `Updated` of the old state and dt |

## Left out

- SFML rendering is not modelled beyond the batch-draw log. This covers `RenderTexture::clear` and `display`, the ground and scene sprites, their placement, colour and 1/quality upscale, and the final draw into the window target. These are foreign library calls.
- `renderVertexArray` (src/System/GameRender.cpp:95-121) is left out. It draws an external vertex array, which is not part of the batch table. The three-argument overload also translates the caller's `sf::RenderStates` in place by `Viewport.ScreenOffset`; that write to the caller's object is not modelled.
- `initGround` (src/System/GameRender.cpp:197-202) draws straight into the ground surface, which is not modelled.
- Texture file loading and the `std::cout` logging are I/O. The load outcome is the parameter `loaded`.
- `initialize` leaves out several steps: the `width*_quality` float-to-unsigned conversion, the creation of the three render textures, `MAP_SIZE`, the blur and light-engine set-up, and `GraphicUtils::init`. The render size is taken as given.
- `getBlur`, `getLightEngine`, the light-engine `clear`, and the disabled light composite are left out. They belong to kernels outside this model.
- `getScreenSpaceShadowCasters` is a getter; there the caster list is the public field `screenSpaceEntities`.
- `addQuad` on an index with no batch, or with a quad of fewer than four vertices, is undefined behaviour in the source. The model makes both the precondition `CanAddQuad`.
- `registerTexture` is called with one argument in src/Weapons/AK.cpp:115-118, so its `isRepeated` parameter has a default in GameRender.hpp, which is not part of this model. The model always takes the flag explicitly.
- Floats are modelled as reals. Rounding of `0.5f`, `0.2` and `DT` is not modelled.
- In `AK::fire`, the spawning of the bullet, smoke, fire and shell entities is left out. So are the randomness (`rand`, `getRandomAngle`), `tanh`, `transformVec` and the cool-down reset.
- `AK::init`, the constructor's animations and offsets, and `getFireOutPosition` are left out. They are asset registration and float geometry.
- `Weapon::isReady` and `Cooldown` are not part of this model. Readiness is the parameter `ready`.
- Weapons.AK.Fire: the rounds-loaded counter is an unbounded integer. Weapon.hpp, which declares its type, is not part of this model. So the model does not capture a wrap-around when a ready weapon fires with an empty magazine.
- Weapons.Reloaded: conservation and "full unless the reserve ran dry" are stated only for states whose reserve lies in [0, INT_MAX]. A fresh AK starts in such a state, and every operation keeps it there. The fill property also needs a magazine that is not over-full and is within 2^64 of full. Outside these bounds the function still computes the source's wrapped arithmetic.
