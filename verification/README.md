# Sprite batching renderer, explosion animation and bullet pool

A Dafny model of the core of a small WebGPU 2D engine and of two pieces of the
game built on it.

**The sprite renderer.** `SpriteRenderer` gathers draw requests into per-texture
batches during a frame and submits them at the end of the frame.
- Each draw request (`drawSprite`, `drawSpriteSource`) writes one quad of
  4 vertices × 7 floats into the next slot of the last `BatchDrawCall` of its
  texture.
- A batch holds at most `MAX_SPRITES` = 1000 quads. When a batch fills, an
  empty one is put after it.
- `frameEnd` walks every texture and every batch in order and skips empty
  batches. For each non-empty batch it takes a vertex buffer from a free list,
  or creates one, uploads the batch and issues one indexed draw of
  `6 × instanceCount` indices.
- At the end of `frameEnd` the buffers it used go back on the free list.
- A shared 16-bit index buffer lays out two triangles per sprite slot.
- Pipelines are cached per texture id across frames.

**The explosion** is a 4 × 4 sprite-sheet animation that advances one cell every
1000/30 ms and stops after the last cell.

**The bullet pool** reuses inactive bullets, spawns a left and a right bullet
every 250 ms, moves them up and deactivates the first bullet that hits an enemy.

**How the model is organised.**
- Batching, GpuFrame and the pure parts of Explosions and BulletPool are
  value-level specifications: datatypes, functions and lemmas.
- The imperative code stays imperative:
  - `BatchDrawCall` is a class over an `array<real>`;
  - the per-frame table is a class with a map of lists of batch objects;
  - `SpriteRenderer`, `Explosion`, `Bullet` and `BulletManager` are classes
    whose methods update their fields;
  - the index buffer is filled by a loop over an array;
  - `frameEnd` is a nested loop.
  Each method is proved against the value-level functions.
- GPU calls are appended to an event log (`GpuFrame.Event`). Pipelines and
  vertex buffers are opaque handles numbered by creation. The render pass is an
  opaque handle that `framePass` is given; every draw of `frameEnd` names the
  pass it is recorded into.

Files:
- `batching.dfy` (module Batching): vertex layout, UVs, the batch value, the
  capacity invariant, one draw on a list and on the per-texture table.
- `index_buffer.dfy` (IndexBuffer): the index buffer loop.
- `gpu_frame.dfy` (GpuFrame): the event log and the end-of-frame submission,
  with its draw, pool-size and ownership properties.
- `batch_draw_call.dfy` (BatchDrawCalls): the `BatchDrawCall` class, quad
  writes into its array, and the invariant tying batch objects to batch values.
- `batch_table.dfy` (BatchTables): the `{ [id]: BatchDrawCall[] }` table as a
  class.
- `renderer.dfy` (Renderer): `SpriteRenderer`.
- `explosion.dfy` (Explosions): `Explosion`.
- `bullet_manager.dfy` (BulletPool): the circle collider, `Bullet` and
  `BulletManager`.

## Model

| member | source | states |
|---|---|---|
| Batching.SourceUv | src/sprite-renderer.ts:185-188 | The UV span of a source rectangle. Scaling it back by the texture size gives the rectangle's origin and size again. |
| Batching.FullSourceIsUnit | src/sprite-renderer.ts:185-188 | A source rectangle that covers the whole texture samples exactly the unit square that `drawSprite` uses. |
| Batching.SubRegionUv | src/sprite-renderer.ts:185-188 | Concrete case: the top-right quarter of a 32×32 texture maps to u 0.5–1, v 0–0.5. |
| Batching.SpriteQuadLayout | src/sprite-renderer.ts:113-149 | `drawSprite` writes 28 floats: the corners TL, TR, BR, BL with UVs (0,0), (1,0), (1,1), (0,1) and colour (1,1,1). |
| Batching.QuadFloats | src/sprite-renderer.ts:113-149 | A quad occupies 28 floats: four vertices of seven floats each. |
| Batching.QuadLayout | src/sprite-renderer.ts:113-149 | Each vertex of a quad holds its corner of the rectangle, its UV corner and the colour, in the order TL, TR, BR, BL. |
| Batching.SourceQuadLayout | src/sprite-renderer.ts:190-224 | `drawSpriteSource` writes (u0,v0), (u1,v0), (u1,v1), (u0,v1) at TL, TR, BR, BL, with the tint repeated at every vertex. |
| Batching.Splice | src/sprite-renderer.ts:113-149 | Writing a run at an offset puts exactly that run there and leaves every other float as it was. |
| Batching.EmptyBatchQuads | src/sprite-renderer.ts:13-18 | A new batch fits its capacity and holds no quads. |
| Batching.Fill | src/sprite-renderer.ts:113-151 | Filling the next slot keeps the batch within capacity and on its pipeline. |
| Batching.FilledQuads | src/sprite-renderer.ts:113-151 | Writing slot `instanceCount` and counting it adds exactly that quad after the quads the batch already held. |
| Batching.Append | src/sprite-renderer.ts:101-156 | One draw keeps the capacity invariant: every batch but the last is full, the last is open. The list grows by at most two batches. |
| Batching.AppendQuads | src/sprite-renderer.ts:101-156 | The draw order is kept. After a draw the list holds its earlier quads followed by the new one. |
| Batching.AppendOpen | src/sprite-renderer.ts:106-156 | A draw into a non-empty list fills its last batch. If that batch is now full, it also appends one empty batch. |
| Batching.WellFormedQuadCount | src/sprite-renderer.ts:151-156 | The quad count of a well-formed list is (batches − 1) × MAX_SPRITES plus the last batch's count. |
| Batching.DrawRun | src/sprite-renderer.ts:101-156 | N draws to one texture leave exactly those quads in order. They sit in N div MAX_SPRITES full batches and one last batch holding N mod MAX_SPRITES. |
| Batching.OneBatchBelowCapacity | src/sprite-renderer.ts:151-156 | Fewer than MAX_SPRITES draws stay in one batch. |
| Batching.SpillAtCapacity | src/sprite-renderer.ts:151-156 | The MAX_SPRITES-th draw already opens an empty second batch. One more draw puts one quad into it. |
| Batching.TableAppend | src/sprite-renderer.ts:101-111 | A draw to `id` adds `id` to the table's ids and leaves every other texture's list unchanged. |
| Batching.DrawsToDistinctTexturesCommute | src/sprite-renderer.ts:101-111 | Draws to two different textures can be swapped without changing the table. |
| Batching.TableAppendWellFormed | src/sprite-renderer.ts:151-156 | A draw keeps every list in the table well formed. |
| Batching.TableOpenWellFormed | src/sprite-renderer.ts:101-111 | Opening a texture's list with one empty batch keeps every list well formed. |
| Batching.FillThenSeal | src/sprite-renderer.ts:113-156 | Writing the quad, then appending an empty batch when the last one is full, is the draw `TableAppend` describes. |
| Batching.AppendPipeline | src/sprite-renderer.ts:107-110 | Every batch a draw opens uses the pipeline the draw was made with. |
| Batching.TableAppendConsistent | src/sprite-renderer.ts:90-110 | Drawing with the texture's own pipeline keeps every batch of that texture on that pipeline. |
| Batching.ConsistentNewPipeline | src/sprite-renderer.ts:95-98 | Caching a pipeline for a texture that had none keeps the table consistent. |
| Batching.ConsistentOpen | src/sprite-renderer.ts:101-111 | Opening a list with an empty batch on the texture's pipeline keeps the table consistent. |
| Batching.AppendToOpened | src/sprite-renderer.ts:101-111 | Drawing into a list just opened with one empty batch gives the same list as drawing into no list. |
| Batching.TableAppendOpened | src/sprite-renderer.ts:101-111 | The same fact for the whole table: opening the list first and then drawing is the one draw `TableAppend` describes. |
| IndexBuffer.Uint16Small | src/sprite-renderer.ts:51-62 | A value below 2^16 is stored unchanged in the Uint16Array. |
| IndexBuffer.IndexAt | src/sprite-renderer.ts:53-63 | Entry k is one of the four vertices of sprite slot k / 6, so it never reaches into another slot's quad. |
| IndexBuffer.IndexAtSlot | src/sprite-renderer.ts:53-63 | Entry 6i + j of the buffer is 4i plus corner j of the pattern 0,1,2,2,3,0. |
| IndexBuffer.WriteSlot | src/sprite-renderer.ts:54-62 | One loop iteration writes the six entries of slot i and changes no other entry. |
| IndexBuffer.IndexData | src/sprite-renderer.ts:50-64 | The buffer has 6 × MAX_SPRITES entries. Entry k is `IndexAt(k)` and lies below 4 × MAX_SPRITES, so the 16-bit store loses nothing. |
| IndexBuffer.SpriteIndices | src/sprite-renderer.ts:53-63 | Slot i holds the two triangles (4i, 4i+1, 4i+2) and (4i+2, 4i+3, 4i). |
| GpuFrame.SubmitAllConcat | src/sprite-renderer.ts:237-262 | Submitting two runs of batches one after the other is the same as submitting their concatenation. |
| GpuFrame.Submit | src/sprite-renderer.ts:241-260 | An empty batch changes nothing. A non-empty batch takes one buffer, popped from the end of the free list or newly created when the list is empty, and logs two events, the second a draw of 6 × instanceCount indices from that buffer into the pass. |
| GpuFrame.SubmitAll | src/sprite-renderer.ts:237-262 | Walking the batches never shrinks the used list, the log or the buffer count, never grows the free list, and loses no buffer. |
| GpuFrame.SubmitAllKeeps | src/sprite-renderer.ts:237-262 | The walk only appends to the used list and the log, and the free list only loses buffers from its end. |
| GpuFrame.SubmitAllUsed | src/sprite-renderer.ts:243-249 | The used list gains the popped end of the free list, last first, followed by the newly created buffers in creation order. |
| GpuFrame.Flatten | src/sprite-renderer.ts:237-238 | The first texture's batches come first in the walk, in their own order. |
| GpuFrame.FlattenHoldsAll | src/sprite-renderer.ts:237-238 | Every batch of every texture in the key order is in the walk, as often as in its own list. |
| GpuFrame.FrameEnd | src/sprite-renderer.ts:234-267 | The frame ends with no buffer in use and a free list no shorter than before. The log and the buffer count only grow. |
| GpuFrame.DrawsUploadThenDraw | src/sprite-renderer.ts:243-260 | An upload followed by a draw on the same buffer adds one draw record, which renders the uploaded data. |
| GpuFrame.SubmitAllDraws | src/sprite-renderer.ts:237-262 | The frame walk issues exactly one draw per non-empty batch, in order, each recorded into the frame's pass. Each draw renders that batch's vertices with its pipeline and 6 × instanceCount indices. Empty batches issue nothing. |
| GpuFrame.SubmitAllPool | src/sprite-renderer.ts:241-249 | One buffer is taken per non-empty batch. Free buffers are used up first, and buffers are created only for the shortfall. |
| GpuFrame.FrameEndPoolSize | src/sprite-renderer.ts:234-267 | After the frame the free list holds max(old size, number of non-empty batches) buffers. New buffers are created only for the shortfall. |
| GpuFrame.SubmitAllNothingToDraw | src/sprite-renderer.ts:241 | Batches that are all empty change nothing. |
| GpuFrame.EmptyFrame | src/sprite-renderer.ts:234-267 | A frame with nothing to draw leaves the free list, the buffer count and the log as they were. |
| GpuFrame.SubmitOwned | src/sprite-renderer.ts:241-249 | Submitting one batch keeps every buffer in exactly one place, and every handle below the number created. |
| GpuFrame.SubmitAllOwned | src/sprite-renderer.ts:243-249 | A buffer taken this frame is never also on the free list and never taken twice. |
| GpuFrame.FrameEndOwned | src/sprite-renderer.ts:264-266 | After the used buffers are pushed back, the free list still holds distinct buffers that were all created before. |
| BatchDrawCalls.BatchDrawCall.constructor | src/sprite-renderer.ts:13-18 | A new batch has a zero-filled array of MAX_SPRITES quads, no quads and the given pipeline. |
| BatchDrawCalls.WriteVertex | src/sprite-renderer.ts:116-122 | Seven stores write one vertex at the offset and change nothing else. |
| BatchDrawCalls.WriteQuad | src/sprite-renderer.ts:113-151 | The 28 stores and `instanceCount++` fill the batch's next slot with the quad and count it. |
| BatchDrawCalls.TabledKeys | src/sprite-renderer.ts:237 | The ids that `for ... in` visits are the table's ids, each exactly once. |
| BatchDrawCalls.TabledOpen | src/sprite-renderer.ts:101-111 | Opening a new id with one empty batch keeps every list of objects mirroring its list of values. |
| BatchDrawCalls.TabledFill | src/sprite-renderer.ts:113-151 | Writing into the last batch of one id keeps every other batch object and its value. |
| BatchDrawCalls.TabledSeal | src/sprite-renderer.ts:153-156 | Pushing a fresh empty batch after a list keeps the mirror. |
| BatchTables.BatchTable.constructor | src/sprite-renderer.ts:76 | The table starts empty. |
| BatchTables.BatchTable.Open | src/sprite-renderer.ts:101-111 | The first draw to an id this frame creates its list with one fresh empty batch. The id is added last to the visiting order. |
| BatchTables.BatchTable.At | src/sprite-renderer.ts:238-240 | Batch i of a list holds value i of the table's entry. |
| BatchTables.BatchTable.Last | src/sprite-renderer.ts:106-107 | The batch a draw writes into is the last of its list, and it is still open. |
| BatchTables.BatchTable.KeysAreIds | src/sprite-renderer.ts:237 | The visiting order lists every id of the table exactly once. |
| BatchTables.BatchTable.SameLength | src/sprite-renderer.ts:238-240 | A list of batch objects and its list of values have the same length. |
| BatchTables.BatchTable.Add | src/sprite-renderer.ts:101-156 | One draw request changes the table exactly as `TableAppend` does. An id seen for the first time this frame goes last in the visiting order. Batch objects and arrays it adds are new. |
| BatchTables.BatchTable.OpenIfNew | src/sprite-renderer.ts:100-111 | An id without a list this frame gets one empty batch and goes last in the visiting order. An id with a list keeps it. |
| BatchTables.BatchTable.Put | src/sprite-renderer.ts:113-156 | Writing into the last batch and sealing it when full is the `TableAppend` draw, and it keeps the invariant. The visiting order is unchanged, and any batch it adds is new. |
| BatchTables.BatchTable.FillLast | src/sprite-renderer.ts:113-151 | Only the last value of the id's list changes, and it becomes `Filled`. |
| BatchTables.BatchTable.Seal | src/sprite-renderer.ts:153-156 | An empty batch on the pipeline is put after the id's list. The batch object and its array are new. |
| BatchTables.BatchTable.Attach | src/sprite-renderer.ts:155 | The push of the new batch object mirrors appending `EmptyBatch` to the values. The footprint grows by exactly that object and its array. |
| Renderer.RegistryAdd | src/sprite-renderer.ts:95-98 | Creating the next pipeline for an uncached texture keeps pipelines numbered by creation. |
| Renderer.RegistryInjective | src/sprite-renderer.ts:34 | Two different texture ids never share a pipeline. |
| Renderer.CacheMiss | src/sprite-renderer.ts:92-98 | A cache miss keeps the cache invariant and makes the texture current. |
| Renderer.SpriteRenderer.constructor | src/sprite-renderer.ts:20-48 | Empty caches, an empty free list and an empty log. |
| Renderer.SpriteRenderer.SetupIndexBuffer | src/sprite-renderer.ts:50-66 | Exactly one index buffer is created, holding `IndexAt(k)` at every position k. |
| Renderer.SpriteRenderer.Init | src/sprite-renderer.ts:68-71 | The uniform buffer is created, then the index buffer. |
| Renderer.SpriteRenderer.FramePass | src/sprite-renderer.ts:73-87 | The pass is kept, the batch table starts empty and holds no batch objects, the projection-view matrix is written. The cache, free list and current texture carry over. |
| Renderer.SpriteRenderer.PipelineFor | src/sprite-renderer.ts:90-99 | A pipeline is created and logged exactly when the texture id has none. The result is the cached pipeline of the id, and the texture becomes current. |
| Renderer.SpriteRenderer.CreatePipelineFor | src/sprite-renderer.ts:95-98 | The next pipeline is cached under the texture id and logged. |
| Renderer.SpriteRenderer.Draw | src/sprite-renderer.ts:101-156 | The table changes by `TableAppend`, which keeps the renderer's invariant. |
| Renderer.SpriteRenderer.DrawSprite | src/sprite-renderer.ts:89-157 | The cache, pipeline count and log change as in `PipelineFor`. The table gains the unit-UV white quad under the texture's pipeline. A texture first drawn this frame goes last in the visiting order that `frameEnd` follows. Batch objects it adds are new. The pass and the free list are untouched. |
| Renderer.SpriteRenderer.DrawSpriteSource | src/sprite-renderer.ts:159-232 | The same as `DrawSprite`, including the visiting order, with the quad carrying the source rectangle's UVs and the tint. |
| Renderer.SpriteRenderer.SubmitBatch | src/sprite-renderer.ts:241-260 | The submission of one batch object into the pass is `Submit` of its value. |
| Renderer.SpriteRenderer.SubmitList | src/sprite-renderer.ts:238-261 | The inner loop submits the id's whole list, in order. |
| Renderer.SpriteRenderer.SubmitFrame | src/sprite-renderer.ts:237-262 | The outer loop submits every list, texture after texture, in the order the textures were first drawn. |
| Renderer.SpriteRenderer.PushBack | src/sprite-renderer.ts:264-266 | The used buffers end up after the free list, in the order they were used. |
| Renderer.SpriteRenderer.Frame | src/sprite-renderer.ts:234-267 | The end-of-frame result is `GpuFrame.FrameEnd` of the current state, with ownership kept. |
| Renderer.SpriteRenderer.FrameEnd | src/sprite-renderer.ts:234-267 | The free list, buffer count and log become `GpuFrame.FrameEnd` of their old values and the frame's table, with every draw recorded into the pass `framePass` stored. The invariant holds. |
| Explosions.Advance | apps/2d/src/game/explosion.ts:37-49 | The next cell in row-major order, with the time reset. It stops, back at cell (0,0), exactly after the last cell. |
| Explosions.Step | apps/2d/src/game/explosion.ts:33-52 | Nothing changes when not playing. The cell changes only when the gathered time exceeds 1000/30, and the time then resets to 0. Otherwise the time accumulates. The cell stays in the grid. |
| Explosions.PlayingThrough | apps/2d/src/game/explosion.ts:37-49 | For k < 16, the k-th advance from the start still plays and shows cell k in row-major order. |
| Explosions.PlayedOut | apps/2d/src/game/explosion.ts:41-48 | After 16 advances from the start the animation has stopped, at row 0 and column 0. |
| Explosions.CellRect | apps/2d/src/game/explosion.ts:54-56 | The source cell lies inside the 4×4 sheet. |
| Explosions.CellUv | apps/2d/src/game/explosion.ts:54-58 | On a 128×128 sheet the cell maps to UVs col/4 to (col+1)/4 and row/4 to (row+1)/4, all within [0, 1]. |
| Explosions.Explosion.constructor | apps/2d/src/game/explosion.ts:8-23 | Not playing, at cell (0,0), with 32×32 rectangles. |
| Explosions.Explosion.Play | apps/2d/src/game/explosion.ts:25-31 | Playing from cell (0,0) with no time gathered, at the given draw rectangle. |
| Explosions.Explosion.Update | apps/2d/src/game/explosion.ts:33-52 | The new state is `Step` of the old one. |
| Explosions.Explosion.Draw | apps/2d/src/game/explosion.ts:54-59 | The source rectangle becomes the current cell, and the draw request carries it with the draw rectangle. |
| BulletPool.ColliderOf | src/circle-collider.ts:8-16 | The circle's radius is half of the rectangle's width or height, whichever is smaller. The circle touches the rectangle's left and top edges. |
| BulletPool.ColliderInside | src/circle-collider.ts:8-16 | The collider's radius is half the rectangle's smaller side, and the circle lies inside the rectangle. |
| BulletPool.IntersectsSymmetric | src/circle-collider.ts:18-25 | Intersection does not depend on which collider asks. |
| BulletPool.Intersects | src/circle-collider.ts:18-25 | Two colliders intersect only when their radius sum is positive. |
| BulletPool.IntersectsAsDistance | src/circle-collider.ts:18-25 | For the centre distance d, the squared test holds exactly when d is below the sum of the radii, which is the source's `sqrt` comparison. |
| BulletPool.TouchingIsNotIntersecting | src/circle-collider.ts:18-25 | The test is strict: touching circles do not intersect, and a circle with positive radius intersects itself. |
| BulletPool.SpawnedLeft | apps/2d/src/game/bullet.ts:25-29 | Active, moved to the player's top-left corner, with size and collider kept. |
| BulletPool.SpawnedRight | apps/2d/src/game/bullet.ts:31-35 | Active, 8 units left of the player's right edge at its top, with size and collider kept. |
| BulletPool.Moved | apps/2d/src/game/bullet.ts:37-44 | Moved up by 0.75 × dt with the collider following. It stays active exactly while it is not entirely above the top. |
| BulletPool.FirstInactive | apps/2d/src/game/bullet-manager.ts:15 | The first inactive bullet, if any: all bullets before it are active. None means all are active. |
| BulletPool.FirstHit | apps/2d/src/game/bullet-manager.ts:26-31 | The first active bullet touching the enemy, if any. None means no bullet hits. |
| BulletPool.Acquire | apps/2d/src/game/bullet-manager.ts:14-23 | The first inactive bullet, with the pool unchanged. Otherwise one new bullet is appended and returned. The pool grows exactly when all bullets are active. |
| BulletPool.Deactivated | apps/2d/src/game/bullet-manager.ts:25-33 | The hit test keeps the pool's size, every bullet's rectangles, and can only clear active flags. The pool is unchanged exactly when no bullet hits the enemy. |
| BulletPool.DeactivatedOnlyFirst | apps/2d/src/game/bullet-manager.ts:25-33 | A hit changes only the first hitting bullet, and only its active flag. Without a hit nothing changes. |
| BulletPool.DeactivatedSome | apps/2d/src/game/bullet-manager.ts:25-33 | If any bullet hits, one hitting bullet at or before it is deactivated. |
| BulletPool.SpawnOne | apps/2d/src/game/bullet-manager.ts:40-41 | The taken bullet is spawned at the player's left or right edge. No other bullet changes. |
| BulletPool.SpawnPair | apps/2d/src/game/bullet-manager.ts:40-41 | A spawn grows the pool by at most two bullets and leaves active bullets alone. |
| BulletPool.SpawnPairShape | apps/2d/src/game/bullet-manager.ts:38-42 | The left and right bullets are two different bullets, and both are active. Taking the right bullet does not disturb the left one. |
| BulletPool.MovedAll | apps/2d/src/game/bullet-manager.ts:44-48 | Moving keeps the pool's size. |
| BulletPool.Updated | apps/2d/src/game/bullet-manager.ts:36-48 | An update never shrinks the pool. Every bullet active before it is moved by its velocity times dt. Without a spawn, inactive bullets stay as they were. |
| BulletPool.UpdatedGrowth | apps/2d/src/game/bullet-manager.ts:36-48 | One update grows the pool by at most two bullets, and only when the timer fires. |
| BulletPool.Bullet.constructor | apps/2d/src/game/bullet.ts:15-23 | Active, with the sprite's rectangles and texture. |
| BulletPool.Bullet.SpawnL | apps/2d/src/game/bullet.ts:25-29 | The new state is `SpawnedLeft` of the old one. |
| BulletPool.Bullet.SpawnR | apps/2d/src/game/bullet.ts:31-35 | The new state is `SpawnedRight` of the old one. |
| BulletPool.Bullet.Update | apps/2d/src/game/bullet.ts:37-44 | The new state is `Moved` of the old one. |
| BulletPool.BulletManager.constructor | apps/2d/src/game/bullet-manager.ts:9-12 | An empty pool and a timer at 0. |
| BulletPool.BulletManager.FindInactive | apps/2d/src/game/bullet-manager.ts:15 | The search loop finds `FirstInactive` of the pool. |
| BulletPool.BulletManager.Create | apps/2d/src/game/bullet-manager.ts:14-23 | The pool and the returned bullet are `Acquire` of the old pool. The pool only grows, by at most one new bullet. |
| BulletPool.BulletManager.Grow | apps/2d/src/game/bullet-manager.ts:18-19 | One new active bullet is pushed at the end. |
| BulletPool.BulletManager.IntersectsEnemy | apps/2d/src/game/bullet-manager.ts:25-34 | The result is true iff some active bullet touches the enemy. The pool becomes `Deactivated` of the old pool. |
| BulletPool.BulletManager.Tick | apps/2d/src/game/bullet-manager.ts:37-39 | The timer gathers dt and fires, resetting to 0, exactly when it exceeds 250. |
| BulletPool.BulletManager.Spawn | apps/2d/src/game/bullet-manager.ts:40-41 | One `create().spawnL/R(player)` is `SpawnOne`. |
| BulletPool.BulletManager.SpawnBoth | apps/2d/src/game/bullet-manager.ts:40-41 | Both spawns together are `SpawnPair`. |
| BulletPool.BulletManager.MoveBullets | apps/2d/src/game/bullet-manager.ts:44-48 | Every active bullet moves, and inactive ones stay as they are (`MovedAll`). |
| BulletPool.BulletManager.Refresh | apps/2d/src/game/bullet-manager.ts:38-48 | Spawning if the timer fired, then moving, gives `Updated`. |
| BulletPool.BulletManager.Update | apps/2d/src/game/bullet-manager.ts:36-49 | The timer is accumulated and reset as in `Tick`, and the pool becomes `Updated`. The pool only grows, by at most two. |

## Left out

- GPU plumbing is not modelled. Pipeline creation, buffer creation and
  writes, bind groups and pass-encoder calls become events in a log, over
  opaque handles. The five pass-encoder calls before each `drawIndexed` are
  one `DrawIndexed` event, which names the pass.
- The device, the canvas and the frame loop are not part of this model.
- The camera and its projection-view matrix are float matrix math. `framePass`
  only logs that the matrix was written.
- The default colour is not modelled. The `color` argument of
  `drawSpriteSource` is always passed explicitly; the default is white.
- Float32 precision is not modelled. Vertex data and UVs are real numbers, and
  so are the times and positions of the explosion and the bullets.
- Renderer.SpriteRenderer.DrawSpriteSource: requires a texture of non-zero
  width and height. With a zero size the code would store Infinity or NaN UVs.
- Renderer.SpriteRenderer.FrameEnd: requires that `framePass` has stored a
  pass. The field is declared with `!` and never initialised. Without a pass,
  a frame with a non-empty batch throws a TypeError at the first `setPipeline`,
  after a buffer was already popped or created and written. A frame with
  nothing to draw would succeed. Neither case is modelled.
- Texture ids are an abstract type compared only for equality. The code's
  string keys are never inspected. `for ... in` is modelled as visiting ids in
  the order they were first added, which is JavaScript's order for
  non-integer-like string keys. Integer-like ids, which JavaScript visits
  first in numeric order, are not modelled.
- `currentTexture` is compared by value. The code compares texture objects by
  identity. Pipelines are looked up by id in both cases, so the effect is the
  same.
- In `frameEnd` the free-list pops and the pushes of used
  buffers are done on a local value of the submission and stored back once at
  the end. Nothing else reads the fields in between.
- `BulletManager.draw` and `Bullet.draw` are left out. They only forward
  active bullets to `drawSpriteSource`, which is modelled.
- BulletPool.Intersects: compares squared distance with squared radius sum,
  and is false when the radius sum is not positive, as `d < r` is. Over the
  reals this is the `sqrt(dx² + dy²) < r` test (`IntersectsAsDistance`), but
  `Math.sqrt` rounding is not modelled.
- Player input and movement are not modelled. The player's draw rectangle is a
  parameter of `BulletManager.Update`.
- The `laserBlue01` sprite, loaded from the content atlas, is a parameter of
  the manager's constructor.
- The explosion's texture is a parameter of `Explosion.Draw`, and its
  renderer call is returned as a `DrawRequest` value.
