/** The sprite renderer: a pipeline cache by texture id, the per-frame batch
    table, and a free list of vertex buffers, all updated in place. What it asks
    of the GPU is appended to an event log; each method is proved against the
    value-level model in Batching and GpuFrame. */
module Renderer {
  import opened Batching
  import opened GpuFrame
  import IndexBuffer
  import opened BatchDrawCalls
  import opened BatchTables

  /** Pipelines are numbered by creation: `owners[k]` is the texture id the
      k-th pipeline was created for. */
  ghost predicate Registry(pipelines: map<TextureId, Pipeline>, owners: seq<TextureId>, created: nat)
  {
    && |owners| == created
    && forall id | id in pipelines :: pipelines[id].serial < created && owners[pipelines[id].serial] == id
  }

  /** Creating the next pipeline for a texture that has none keeps the registry. */
  lemma RegistryAdd(pipelines: map<TextureId, Pipeline>, owners: seq<TextureId>, created: nat, id: TextureId)
    requires Registry(pipelines, owners, created) && id !in pipelines
    ensures Registry(pipelines[id := Pipeline(created)], owners + [id], created + 1)
  {
    var p := pipelines[id := Pipeline(created)];
    var o := owners + [id];
    forall k | k in p ensures p[k].serial < created + 1 && o[p[k].serial] == k {
      if k != id {
        assert o[p[k].serial] == owners[p[k].serial];
      }
    }
  }

  /** No two textures share a pipeline. */
  lemma RegistryInjective(pipelines: map<TextureId, Pipeline>, owners: seq<TextureId>, created: nat, a: TextureId, b: TextureId)
    requires Registry(pipelines, owners, created)
    requires a in pipelines && b in pipelines && a != b
    ensures pipelines[a] != pipelines[b]
  {
  }

  /** The pipeline cache: every texture with batches has its pipeline, the
      current texture has one, and pipelines are numbered by creation. */
  ghost predicate Cached(table: map<TextureId, seq<Batch>>, pipelines: map<TextureId, Pipeline>,
                         owners: seq<TextureId>, created: nat, current: Option<Texture>)
  {
    && Consistent(table, pipelines)
    && (current.Some? ==> current.value.id in pipelines)
    && Registry(pipelines, owners, created)
  }

  /** Creating a pipeline for a texture without one keeps the cache. */
  lemma CacheMiss(table: map<TextureId, seq<Batch>>, pipelines: map<TextureId, Pipeline>,
                  owners: seq<TextureId>, created: nat, current: Option<Texture>, texture: Texture)
    requires Cached(table, pipelines, owners, created, current) && texture.id !in pipelines
    ensures Cached(table, pipelines[texture.id := Pipeline(created)], owners + [texture.id], created + 1, Some(texture))
  {
    ConsistentNewPipeline(table, pipelines, texture.id, Pipeline(created));
    RegistryAdd(pipelines, owners, created, texture.id);
  }

  class SpriteRenderer {
    var passEncoder: Option<RenderPass>
    var currentTexture: Option<Texture>
    /** Pipelines created so far, by texture id; kept across frames. */
    var pipelinesPerTexture: map<TextureId, Pipeline>
    /** This frame's batches, by texture id. */
    var batchDrawCallPerTexture: BatchTable
    /** The free list of vertex buffers; the last one is popped first. */
    var allocatedVertexBuffers: seq<VertexBuffer>
    var pipelinesCreated: nat
    var buffersCreated: nat
    /** Everything asked of the GPU so far. */
    var log: seq<Event>
    /** The texture id each pipeline was created for, in creation order. */
    ghost var pipelineOwners: seq<TextureId>

    ghost predicate Valid()
      reads this, batchDrawCallPerTexture, batchDrawCallPerTexture.Objects, batchDrawCallPerTexture.Arrays
    {
      && batchDrawCallPerTexture.Valid()
      && Cached(batchDrawCallPerTexture.table, pipelinesPerTexture, pipelineOwners, pipelinesCreated, currentTexture)
      && Owned(allocatedVertexBuffers, buffersCreated)
    }

    constructor()
      ensures Valid()
      ensures passEncoder == None && currentTexture == None
      ensures pipelinesPerTexture == map[] && batchDrawCallPerTexture.table == map[]
      ensures batchDrawCallPerTexture.keys == []
      ensures allocatedVertexBuffers == [] && pipelinesCreated == 0 && buffersCreated == 0
      ensures log == []
    {
      passEncoder := None;
      currentTexture := None;
      pipelinesPerTexture := map[];
      batchDrawCallPerTexture := new BatchTable();
      allocatedVertexBuffers := [];
      pipelinesCreated := 0;
      buffersCreated := 0;
      log := [];
      pipelineOwners := [];
    }

    /** Fills the shared index buffer: sprite slot i draws its quad as the
        triangles (4i, 4i+1, 4i+2) and (4i+2, 4i+3, 4i). */
    method SetupIndexBuffer()
      modifies this`log
      ensures |log| == |old(log)| + 1 && log[..|old(log)|] == old(log)
      ensures var e := log[|log| - 1];
        && e.CreateIndexBuffer?
        && |e.indices| == MAX_SPRITES * INDICES_PER_SPRITE
        && forall k | 0 <= k < |e.indices| :: e.indices[k] == IndexBuffer.IndexAt(k)
    {
      var data := IndexBuffer.IndexData();
      log := log + [CreateIndexBuffer(data)];
    }

    /** Creates the projection-view uniform buffer, then the index buffer. */
    method Init()
      modifies this`log
      ensures |log| == |old(log)| + 2 && log[..|old(log)|] == old(log)
      ensures log[|old(log)|] == CreateUniformBuffer
      ensures var e := log[|log| - 1];
        && e.CreateIndexBuffer?
        && |e.indices| == MAX_SPRITES * INDICES_PER_SPRITE
        && forall k | 0 <= k < |e.indices| :: e.indices[k] == IndexBuffer.IndexAt(k)
    {
      log := log + [CreateUniformBuffer];
      SetupIndexBuffer();
    }

    /** Starts a frame: remembers the pass, forgets last frame's batches, and
        uploads the camera's projection-view matrix. The pipeline cache, the
        free list and the current texture carry over. */
    method FramePass(pass: RenderPass)
      requires Valid()
      modifies this`passEncoder, this`batchDrawCallPerTexture, this`log
      ensures Valid()
      ensures passEncoder == Some(pass)
      ensures batchDrawCallPerTexture.table == map[] && batchDrawCallPerTexture.keys == []
      ensures fresh(batchDrawCallPerTexture)
      ensures batchDrawCallPerTexture.Objects == {} && batchDrawCallPerTexture.Arrays == {}
      ensures log == old(log) + [WriteProjectionView]
    {
      passEncoder := Some(pass);
      batchDrawCallPerTexture := new BatchTable();
      log := log + [WriteProjectionView];
    }

    /** The pipeline for `texture`: when the texture differs from the current
        one it becomes current, and a pipeline is created for its id unless one
        is cached. */
    method PipelineFor(texture: Texture) returns (pipeline: Pipeline)
      requires Valid()
      modifies this`currentTexture, this`pipelinesPerTexture, this`pipelinesCreated, this`pipelineOwners, this`log
      ensures Valid()
      ensures pipelinesPerTexture == if texture.id in old(pipelinesPerTexture) then old(pipelinesPerTexture)
                                     else old(pipelinesPerTexture)[texture.id := Pipeline(old(pipelinesCreated))]
      ensures pipelinesCreated == old(pipelinesCreated) + (if texture.id in old(pipelinesPerTexture) then 0 else 1)
      ensures log == old(log) + if texture.id in old(pipelinesPerTexture) then []
                                else [CreatePipeline(Pipeline(old(pipelinesCreated)), texture.id)]
      ensures pipeline == pipelinesPerTexture[texture.id]
      ensures currentTexture == Some(texture)
    {
      if currentTexture != Some(texture) && texture.id !in pipelinesPerTexture {
        CreatePipelineFor(texture);
      } else {
        currentTexture := Some(texture);
      }
      pipeline := pipelinesPerTexture[texture.id];
    }

    /** Creates the pipeline of a texture that has none and makes the texture
        current. */
    method CreatePipelineFor(texture: Texture)
      requires Valid() && texture.id !in pipelinesPerTexture
      modifies this`currentTexture, this`pipelinesPerTexture, this`pipelinesCreated, this`pipelineOwners, this`log
      ensures Valid()
      ensures pipelinesPerTexture == old(pipelinesPerTexture)[texture.id := Pipeline(old(pipelinesCreated))]
      ensures pipelinesCreated == old(pipelinesCreated) + 1
      ensures log == old(log) + [CreatePipeline(Pipeline(old(pipelinesCreated)), texture.id)]
      ensures currentTexture == Some(texture)
    {
      CacheMiss(batchDrawCallPerTexture.table, pipelinesPerTexture, pipelineOwners, pipelinesCreated, currentTexture, texture);
      currentTexture, pipelinesPerTexture, pipelinesCreated, log, pipelineOwners :=
        Some(texture), pipelinesPerTexture[texture.id := Pipeline(pipelinesCreated)], pipelinesCreated + 1,
        log + [CreatePipeline(Pipeline(pipelinesCreated), texture.id)], pipelineOwners + [texture.id];
    }

    /** Writes one quad into the last batch of `id`, opening the list with one
        empty batch on the first draw to `id` in this frame. */
    method Draw(id: TextureId, pipeline: Pipeline, rect: Rect, uv: UvSpan, color: Color)
      requires Valid() && id in pipelinesPerTexture && pipeline == pipelinesPerTexture[id]
      modifies batchDrawCallPerTexture, batchDrawCallPerTexture.Objects, batchDrawCallPerTexture.Arrays
      ensures Valid()
      ensures batchDrawCallPerTexture.table
           == TableAppend(old(batchDrawCallPerTexture.table), id, pipeline, QuadFloats(rect, uv, color))
      ensures batchDrawCallPerTexture.keys
           == old(batchDrawCallPerTexture.keys) + if id in old(batchDrawCallPerTexture.table) then [] else [id]
      ensures forall o | o in batchDrawCallPerTexture.Objects && o !in old(batchDrawCallPerTexture.Objects) :: fresh(o)
      ensures forall a | a in batchDrawCallPerTexture.Arrays && a !in old(batchDrawCallPerTexture.Arrays) :: fresh(a)
    {
      ghost var table := batchDrawCallPerTexture.table;
      batchDrawCallPerTexture.Add(id, pipeline, rect, uv, color);
      TableAppendConsistent(table, pipelinesPerTexture, id, QuadFloats(rect, uv, color));
    }

    /** Draws `texture` over the whole of `rect`, untinted. */
    method DrawSprite(texture: Texture, rect: Rect)
      requires Valid()
      modifies this, batchDrawCallPerTexture, batchDrawCallPerTexture.Objects, batchDrawCallPerTexture.Arrays
      ensures Valid()
      ensures batchDrawCallPerTexture == old(batchDrawCallPerTexture)
      ensures pipelinesPerTexture == if texture.id in old(pipelinesPerTexture) then old(pipelinesPerTexture)
                                     else old(pipelinesPerTexture)[texture.id := Pipeline(old(pipelinesCreated))]
      ensures log == old(log) + if texture.id in old(pipelinesPerTexture) then []
                                else [CreatePipeline(Pipeline(old(pipelinesCreated)), texture.id)]
      ensures batchDrawCallPerTexture.table
           == TableAppend(old(batchDrawCallPerTexture.table), texture.id, pipelinesPerTexture[texture.id],
                          QuadFloats(rect, UNIT_UV, WHITE))
      ensures batchDrawCallPerTexture.keys
           == old(batchDrawCallPerTexture.keys) + if texture.id in old(batchDrawCallPerTexture.table) then [] else [texture.id]
      ensures forall o | o in batchDrawCallPerTexture.Objects && o !in old(batchDrawCallPerTexture.Objects) :: fresh(o)
      ensures forall a | a in batchDrawCallPerTexture.Arrays && a !in old(batchDrawCallPerTexture.Arrays) :: fresh(a)
      ensures pipelinesCreated == old(pipelinesCreated) + (if texture.id in old(pipelinesPerTexture) then 0 else 1)
      ensures currentTexture == Some(texture) && passEncoder == old(passEncoder)
      ensures allocatedVertexBuffers == old(allocatedVertexBuffers) && buffersCreated == old(buffersCreated)
    {
      var batches := batchDrawCallPerTexture;
      ghost var table, keys, objects, arrays := batches.table, batches.keys, batches.Objects, batches.Arrays;
      var pipeline := PipelineFor(texture);
      assert batches.table == table && batches.keys == keys && batches.Objects == objects && batches.Arrays == arrays;
      Draw(texture.id, pipeline, rect, UNIT_UV, WHITE);
    }

    /** Draws the part `source` of `texture`, given in texels, over `rect`,
        tinted by `color`. */
    method DrawSpriteSource(texture: Texture, rect: Rect, source: Rect, color: Color)
      requires Valid()
      requires texture.width != 0.0 && texture.height != 0.0
      modifies this, batchDrawCallPerTexture, batchDrawCallPerTexture.Objects, batchDrawCallPerTexture.Arrays
      ensures Valid()
      ensures batchDrawCallPerTexture == old(batchDrawCallPerTexture)
      ensures pipelinesPerTexture == if texture.id in old(pipelinesPerTexture) then old(pipelinesPerTexture)
                                     else old(pipelinesPerTexture)[texture.id := Pipeline(old(pipelinesCreated))]
      ensures log == old(log) + if texture.id in old(pipelinesPerTexture) then []
                                else [CreatePipeline(Pipeline(old(pipelinesCreated)), texture.id)]
      ensures batchDrawCallPerTexture.table
           == TableAppend(old(batchDrawCallPerTexture.table), texture.id, pipelinesPerTexture[texture.id],
                          QuadFloats(rect, SourceUv(texture, source), color))
      ensures batchDrawCallPerTexture.keys
           == old(batchDrawCallPerTexture.keys) + if texture.id in old(batchDrawCallPerTexture.table) then [] else [texture.id]
      ensures forall o | o in batchDrawCallPerTexture.Objects && o !in old(batchDrawCallPerTexture.Objects) :: fresh(o)
      ensures forall a | a in batchDrawCallPerTexture.Arrays && a !in old(batchDrawCallPerTexture.Arrays) :: fresh(a)
      ensures pipelinesCreated == old(pipelinesCreated) + (if texture.id in old(pipelinesPerTexture) then 0 else 1)
      ensures currentTexture == Some(texture) && passEncoder == old(passEncoder)
      ensures allocatedVertexBuffers == old(allocatedVertexBuffers) && buffersCreated == old(buffersCreated)
    {
      var batches := batchDrawCallPerTexture;
      ghost var table, keys, objects, arrays := batches.table, batches.keys, batches.Objects, batches.Arrays;
      var pipeline := PipelineFor(texture);
      assert batches.table == table && batches.keys == keys && batches.Objects == objects && batches.Arrays == arrays;
      Draw(texture.id, pipeline, rect, SourceUv(texture, source), color);
    }

    /** Submits one batch: an empty one is skipped; otherwise a vertex buffer
        is popped from the free list, or created when the list is empty, the
        whole staging array is written to it, and six indices per sprite are
        drawn from it into `pass` with the batch's pipeline. */
    method SubmitBatch(pass: RenderPass, st: Submission, batch: BatchDrawCall) returns (r: Submission)
      ensures r == Submit(pass, st, batch.View())
    {
      if batch.instanceCount == 0 {
        return st;
      }
      var free, events := st.free, st.events;
      var buffer, created;
      if free == [] {
        buffer, created := VertexBuffer(st.created), st.created + 1;
        events := events + [CreateVertexBuffer(buffer, batch.vertexData[..])];
      } else {
        buffer, created := free[|free| - 1], st.created;
        free := free[..|free| - 1];
        events := events + [WriteVertexBuffer(buffer, batch.vertexData[..])];
      }
      events := events + [DrawIndexed(pass, batch.pipeline, buffer, 6 * batch.instanceCount)];
      r := Submission(free, st.used + [buffer], created, events);
    }

    /** Submits the batches of `id`, first to last. */
    method SubmitList(pass: RenderPass, st: Submission, id: TextureId) returns (r: Submission)
      requires batchDrawCallPerTexture.Valid() && id in batchDrawCallPerTexture.lists
      ensures id in batchDrawCallPerTexture.table && r == SubmitAll(pass, st, batchDrawCallPerTexture.table[id])
    {
      var batches := batchDrawCallPerTexture;
      batches.SameLength(id);
      ghost var values := batches.table[id];
      var n := |batches.lists[id]|;
      r := st;
      for j := 0 to n
        invariant r == SubmitAll(pass, st, values[..j])
      {
        var batch := batches.At(id, j);
        r := SubmitBatch(pass, r, batch);
        SubmitAllStep(pass, st, values, j);
      }
      assert values[..n] == values;
    }

    /** Ends the frame: every non-empty batch, texture after texture in the
        order the textures were first drawn, is uploaded to a vertex buffer
        and drawn into the pass of this frame; then the buffers used go back
        onto the free list. */
    method FrameEnd()
      requires Valid() && passEncoder.Some?
      modifies this`allocatedVertexBuffers, this`buffersCreated, this`log
      ensures Valid()
      ensures forall id | id in batchDrawCallPerTexture.keys :: id in batchDrawCallPerTexture.table
      ensures var r := GpuFrame.FrameEnd(passEncoder.value, old(allocatedVertexBuffers), old(buffersCreated), old(log),
                                         batchDrawCallPerTexture.keys, batchDrawCallPerTexture.table);
        && allocatedVertexBuffers == r.free && buffersCreated == r.created && log == r.events
    {
      var r := Frame(passEncoder.value);
      Install(r);
    }

    /** Stores the end-of-frame free list, buffer count and log. */
    method Install(r: Submission)
      requires Valid() && Owned(r.free, r.created)
      modifies this`allocatedVertexBuffers, this`buffersCreated, this`log
      ensures Valid()
      ensures allocatedVertexBuffers == r.free && buffersCreated == r.created && log == r.events
    {
      allocatedVertexBuffers, buffersCreated, log := r.free, r.created, r.events;
    }

    /** What the end of the frame leaves: the free list with this frame's
        buffers pushed back, the buffer count and the event log. */
    method Frame(pass: RenderPass) returns (r: Submission)
      requires Valid()
      ensures forall id | id in batchDrawCallPerTexture.keys :: id in batchDrawCallPerTexture.table
      ensures r == GpuFrame.FrameEnd(pass, allocatedVertexBuffers, buffersCreated, log,
                                     batchDrawCallPerTexture.keys, batchDrawCallPerTexture.table)
      ensures Owned(r.free, r.created)
    {
      var st := SubmitFrame(pass);
      var free := PushBack(st.free, st.used);
      FrameEndOwned(pass, allocatedVertexBuffers, buffersCreated, log, batchDrawCallPerTexture.keys, batchDrawCallPerTexture.table);
      r := Submission(free, [], st.created, st.events);
    }

    /** Pushes the buffers used this frame back onto the free list, one by
        one. */
    static method PushBack(free: seq<VertexBuffer>, used: seq<VertexBuffer>) returns (r: seq<VertexBuffer>)
      ensures r == free + used
    {
      r := free;
      for i := 0 to |used|
        invariant r == free + used[..i]
      {
        r := r + [used[i]];
        assert used[..i + 1] == used[..i] + [used[i]];
      }
      assert used[..|used|] == used;
    }

    /** Submits every texture's batches in the order the textures were first
        drawn in this frame. */
    method SubmitFrame(pass: RenderPass) returns (st: Submission)
      requires Valid()
      ensures forall id | id in batchDrawCallPerTexture.keys :: id in batchDrawCallPerTexture.table
      ensures st == SubmitAll(pass, Submission(allocatedVertexBuffers, [], buffersCreated, log),
                              Flatten(batchDrawCallPerTexture.keys, batchDrawCallPerTexture.table))
    {
      var batches := batchDrawCallPerTexture;
      batches.KeysAreIds();
      ghost var table := batches.table;
      var keys := batches.keys;
      var start := Submission(allocatedVertexBuffers, [], buffersCreated, log);
      st := start;
      for k := 0 to |keys|
        invariant st == SubmitAll(pass, start, Flatten(keys[..k], table))
      {
        var id := keys[k];
        FlattenStep(keys, table, k);
        SubmitAllConcat(pass, start, Flatten(keys[..k], table), table[id]);
        st := SubmitList(pass, st, id);
      }
      assert keys[..|keys|] == keys;
    }
  }
}
