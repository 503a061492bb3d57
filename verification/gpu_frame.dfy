/** What the renderer asks of the GPU, as a log of events over opaque handles,
    and the end-of-frame submission: one upload and one indexed draw per
    non-empty batch, with vertex buffers taken from and returned to a free list. */
module GpuFrame {
  import opened Batching

  /** Opaque handle for a GPU vertex buffer sized for one full batch. */
  datatype VertexBuffer = VertexBuffer(serial: nat)

  /** Opaque handle for the render pass encoder a frame records its draws into;
      the renderer is handed it and never creates one. */
  datatype RenderPass = RenderPass(serial: nat)

  datatype Event =
    | CreatePipeline(pipeline: Pipeline, textureId: TextureId)
    | CreateUniformBuffer
    | CreateIndexBuffer(indices: seq<int>)
    | WriteProjectionView
    | CreateVertexBuffer(buffer: VertexBuffer, data: seq<real>)
    | WriteVertexBuffer(buffer: VertexBuffer, data: seq<real>)
      /** Records into `pass`: binds the pipeline, the shared index buffer, the
          vertex buffer and the pipeline's two bind groups, then draws
          `indexCount` indices. */
    | DrawIndexed(pass: RenderPass, pipeline: Pipeline, buffer: VertexBuffer, indexCount: nat)

  /** The state the end-of-frame walk threads through: the free list, the buffers
      taken this frame, how many buffers were ever created, and the event log. */
  datatype Submission = Submission(free: seq<VertexBuffer>, used: seq<VertexBuffer>, created: nat, events: seq<Event>)

  /** Submits one batch: an empty one is skipped; otherwise a buffer is popped
      from the end of the free list (or created when the list is empty), filled
      with the batch's vertices, and six indices per sprite are drawn from it
      into `pass`. */
  function Submit(pass: RenderPass, st: Submission, b: Batch): (r: Submission)
    ensures b.instanceCount == 0 ==> r == st
    ensures b.instanceCount != 0 ==>
      && |r.used| == |st.used| + 1 && r.used[..|st.used|] == st.used
      && |r.events| == |st.events| + 2 && r.events[..|st.events|] == st.events
      && r.events[|st.events| + 1] == DrawIndexed(pass, b.pipeline, r.used[|st.used|], 6 * b.instanceCount)
    ensures b.instanceCount != 0 && st.free != [] ==>
      st.free == r.free + [r.used[|st.used|]] && r.created == st.created
    ensures b.instanceCount != 0 && st.free == [] ==>
      r.free == [] && r.used[|st.used|] == VertexBuffer(st.created) && r.created == st.created + 1
  {
    if b.instanceCount == 0 then st
    else if st.free == [] then
      var buffer := VertexBuffer(st.created);
      Submission([], st.used + [buffer], st.created + 1,
                 st.events + [CreateVertexBuffer(buffer, b.vertexData),
                              DrawIndexed(pass, b.pipeline, buffer, 6 * b.instanceCount)])
    else
      var buffer := st.free[|st.free| - 1];
      Submission(st.free[..|st.free| - 1], st.used + [buffer], st.created,
                 st.events + [WriteVertexBuffer(buffer, b.vertexData),
                              DrawIndexed(pass, b.pipeline, buffer, 6 * b.instanceCount)])
  }

  /** Submits a run of batches, first to last. The free list only shrinks,
      the used list, the log and the buffer count only grow, and no buffer is
      lost on the way. */
  function SubmitAll(pass: RenderPass, st: Submission, bs: seq<Batch>): (r: Submission)
    ensures |st.used| <= |r.used| && |st.events| <= |r.events| && st.created <= r.created
    ensures |r.free| <= |st.free| && |st.free| + |st.used| <= |r.free| + |r.used|
  {
    if bs == [] then st else Submit(pass, SubmitAll(pass, st, bs[..|bs| - 1]), bs[|bs| - 1])
  }

  /** What a walk keeps: the used list and the log it started with are
      prefixes of the ones it ends with, and the free list it ends with is a
      prefix of the one it started with, so buffers only leave from the end. */
  lemma {:induction false} SubmitAllKeeps(pass: RenderPass, st: Submission, bs: seq<Batch>)
    ensures var r := SubmitAll(pass, st, bs);
      && st.used <= r.used && st.events <= r.events && r.free == st.free[..|r.free|]
  {
    if bs != [] {
      var mid := SubmitAll(pass, st, bs[..|bs| - 1]);
      SubmitAllKeeps(pass, st, bs[..|bs| - 1]);
      var r := Submit(pass, mid, bs[|bs| - 1]);
      assert r.free == mid.free[..|r.free|];
    }
  }

  /** Submitting two runs of batches one after the other is submitting their
      concatenation. */
  lemma {:induction false} SubmitAllConcat(pass: RenderPass, st: Submission, a: seq<Batch>, b: seq<Batch>)
    ensures SubmitAll(pass, st, a + b) == SubmitAll(pass, SubmitAll(pass, st, a), b)
    decreases |b|
  {
    if b == [] {
      assert a + b == a;
    } else {
      var init := b[..|b| - 1];
      assert (a + b)[..|a + b| - 1] == a + init;
      SubmitAllConcat(pass, st, a, init);
    }
  }

  /** Walking one more batch of `bs` submits that batch after the walk so far. */
  lemma SubmitAllStep(pass: RenderPass, st: Submission, bs: seq<Batch>, j: nat)
    requires j < |bs|
    ensures SubmitAll(pass, st, bs[..j + 1]) == Submit(pass, SubmitAll(pass, st, bs[..j]), bs[j])
  {
    assert bs[..j + 1][..j] == bs[..j];
  }

  /** Every texture's batch list, texture after texture in `order`. */
  function Flatten(order: seq<TextureId>, table: map<TextureId, seq<Batch>>): (r: seq<Batch>)
    requires forall id | id in order :: id in table
    ensures |order| > 0 ==> table[order[0]] <= r
  {
    if order == [] then [] else Flatten(order[..|order| - 1], table) + table[order[|order| - 1]]
  }

  /** Flattening one more texture of `order` appends that texture's batches. */
  lemma FlattenStep(order: seq<TextureId>, table: map<TextureId, seq<Batch>>, k: nat)
    requires forall id | id in order :: id in table
    requires k < |order|
    ensures Flatten(order[..k + 1], table) == Flatten(order[..k], table) + table[order[k]]
  {
    assert order[..k + 1][..k] == order[..k];
  }

  /** No batch is left out of the walk: every batch of every texture in `order`
      is among the flattened batches, as often as in its own list. */
  lemma {:induction false} FlattenHoldsAll(order: seq<TextureId>, table: map<TextureId, seq<Batch>>, id: TextureId)
    requires forall id | id in order :: id in table
    requires id in order
    ensures multiset(table[id]) <= multiset(Flatten(order, table))
  {
    var init := order[..|order| - 1];
    if id in init {
      FlattenHoldsAll(init, table, id);
    }
  }

  /** The end of a frame: submit every batch in texture order, then push every
      buffer used this frame back onto the free list. */
  function FrameEnd(pass: RenderPass, free: seq<VertexBuffer>, created: nat, events: seq<Event>,
                    order: seq<TextureId>, table: map<TextureId, seq<Batch>>): (r: Submission)
    requires forall id | id in order :: id in table
    ensures r.used == [] && |events| <= |r.events| && created <= r.created
    ensures |free| <= |r.free|
  {
    var st := SubmitAll(pass, Submission(free, [], created, events), Flatten(order, table));
    Submission(st.free + st.used, [], st.created, st.events)
  }

  // ---------------------------------------------------------------------------
  // Reading the log back: which vertices each draw renders

  /** One draw as the GPU sees it: the pass it is recorded into, the pipeline,
      the vertices last uploaded to the bound buffer, and the number of indices. */
  datatype DrawRecord = DrawRecord(pass: RenderPass, pipeline: Pipeline, vertices: Option<seq<real>>, indexCount: nat)

  /** The data most recently uploaded to `buffer` in `events`. */
  function LastUpload(events: seq<Event>, buffer: VertexBuffer): Option<seq<real>>
  {
    if events == [] then None
    else
      var e := events[|events| - 1];
      if (e.CreateVertexBuffer? || e.WriteVertexBuffer?) && e.buffer == buffer then Some(e.data)
      else LastUpload(events[..|events| - 1], buffer)
  }

  /** The draws in a log, in order. */
  function Draws(events: seq<Event>): seq<DrawRecord>
  {
    if events == [] then []
    else
      var init := events[..|events| - 1];
      var e := events[|events| - 1];
      Draws(init) + (if e.DrawIndexed? then [DrawRecord(e.pass, e.pipeline, LastUpload(init, e.buffer), e.indexCount)] else [])
  }

  /** The batches that hold at least one quad. */
  function NonEmpty(bs: seq<Batch>): seq<Batch>
  {
    if bs == [] then []
    else NonEmpty(bs[..|bs| - 1]) + (if bs[|bs| - 1].instanceCount == 0 then [] else [bs[|bs| - 1]])
  }

  /** The draws a sequence of batches should produce in `pass`: one per
      non-empty batch, rendering its vertices with its pipeline and six indices
      per sprite. */
  function ExpectedDraws(pass: RenderPass, bs: seq<Batch>): seq<DrawRecord>
  {
    if bs == [] then []
    else
      var b := bs[|bs| - 1];
      ExpectedDraws(pass, bs[..|bs| - 1])
        + (if b.instanceCount == 0 then [] else [DrawRecord(pass, b.pipeline, Some(b.vertexData), 6 * b.instanceCount)])
  }

  lemma DrawsUploadThenDraw(events: seq<Event>, upload: Event, pass: RenderPass, p: Pipeline, count: nat)
    requires upload.CreateVertexBuffer? || upload.WriteVertexBuffer?
    ensures Draws(events + [upload, DrawIndexed(pass, p, upload.buffer, count)])
         == Draws(events) + [DrawRecord(pass, p, Some(upload.data), count)]
  {
    var withUpload := events + [upload];
    assert (events + [upload, DrawIndexed(pass, p, upload.buffer, count)])[..|withUpload|] == withUpload;
    assert withUpload[..|events|] == events;
  }

  /** The end-of-frame walk issues exactly one draw per non-empty batch, in
      order, each recorded into `pass` and rendering that batch's vertices
      with its pipeline and 6 * instanceCount indices; empty batches produce
      nothing. */
  lemma {:induction false} SubmitAllDraws(pass: RenderPass, st: Submission, bs: seq<Batch>)
    ensures Draws(SubmitAll(pass, st, bs).events) == Draws(st.events) + ExpectedDraws(pass, bs)
  {
    if bs != [] {
      var init := bs[..|bs| - 1];
      var b := bs[|bs| - 1];
      SubmitAllDraws(pass, st, init);
      var mid := SubmitAll(pass, st, init);
      if b.instanceCount != 0 {
        if mid.free == [] {
          DrawsUploadThenDraw(mid.events, CreateVertexBuffer(VertexBuffer(mid.created), b.vertexData), pass, b.pipeline, 6 * b.instanceCount);
        } else {
          DrawsUploadThenDraw(mid.events, WriteVertexBuffer(mid.free[|mid.free| - 1], b.vertexData), pass, b.pipeline, 6 * b.instanceCount);
        }
      }
    }
  }

  /** The walk pops one free buffer per non-empty batch while any are left and
      creates a new buffer for each of the rest. */
  lemma {:induction false} SubmitAllPool(pass: RenderPass, st: Submission, bs: seq<Batch>)
    ensures var r := SubmitAll(pass, st, bs); var n := |NonEmpty(bs)|;
      && |r.used| == |st.used| + n
      && |r.free| == (if n <= |st.free| then |st.free| - n else 0)
      && r.created == st.created + (if n <= |st.free| then 0 else n - |st.free|)
  {
    if bs != [] {
      SubmitAllPool(pass, st, bs[..|bs| - 1]);
    }
  }

  function Reverse<T>(s: seq<T>): (r: seq<T>)
    ensures |r| == |s| && forall i | 0 <= i < |s| :: r[i] == s[|s| - 1 - i]
  {
    if s == [] then [] else [s[|s| - 1]] + Reverse(s[..|s| - 1])
  }

  /** The buffers with serial numbers `lo` up to, not including, `hi`. */
  function Serials(lo: nat, hi: nat): (r: seq<VertexBuffer>)
    ensures |r| == (if lo <= hi then hi - lo else 0)
    ensures forall i | 0 <= i < |r| :: r[i] == VertexBuffer(lo + i)
    decreases hi
  {
    if hi <= lo then [] else Serials(lo, hi - 1) + [VertexBuffer(hi - 1)]
  }

  lemma ReverseCons<T>(x: T, s: seq<T>)
    ensures Reverse([x] + s) == Reverse(s) + [x]
  {
    assert forall i | 0 <= i < |s| + 1 :: Reverse([x] + s)[i] == (Reverse(s) + [x])[i];
  }

  /** One submission keeps the shape of the used list: the popped end of the
      free list, last first, then the buffers created, in creation order. */
  lemma SubmitUsed(pass: RenderPass, st: Submission, mid: Submission, b: Batch)
    requires |mid.free| <= |st.free| && mid.free == st.free[..|mid.free|] && st.created <= mid.created
    requires mid.free != [] ==> mid.created == st.created
    requires mid.used == st.used + Reverse(st.free[|mid.free|..]) + Serials(st.created, mid.created)
    ensures var r := Submit(pass, mid, b);
      r.used == st.used + Reverse(st.free[|r.free|..]) + Serials(st.created, r.created)
  {
    var r := Submit(pass, mid, b);
    var popped := st.free[|mid.free|..];
    if b.instanceCount != 0 {
      if mid.free != [] {
        var x := mid.free[|mid.free| - 1];
        assert st.free[|r.free|..] == [x] + popped;
        ReverseCons(x, popped);
      } else {
        assert Serials(st.created, r.created) == Serials(st.created, mid.created) + [VertexBuffer(mid.created)];
      }
    }
  }

  /** The buffers a walk takes are the popped end of the free list, last
      first, followed by the buffers it creates, in creation order. */
  lemma {:induction false} SubmitAllUsed(pass: RenderPass, st: Submission, bs: seq<Batch>)
    ensures var r := SubmitAll(pass, st, bs);
      r.used == st.used + Reverse(st.free[|r.free|..]) + Serials(st.created, r.created)
  {
    if bs == [] {
      assert st.free[|st.free|..] == [];
    } else {
      var init := bs[..|bs| - 1];
      SubmitAllUsed(pass, st, init);
      SubmitAllPool(pass, st, init);
      SubmitAllKeeps(pass, st, init);
      SubmitUsed(pass, st, SubmitAll(pass, st, init), bs[|bs| - 1]);
    }
  }

  /** After the frame the free list holds max(previous size, non-empty batches)
      buffers, and a buffer is created only when the free list ran dry. */
  lemma FrameEndPoolSize(pass: RenderPass, free: seq<VertexBuffer>, created: nat, events: seq<Event>,
                         order: seq<TextureId>, table: map<TextureId, seq<Batch>>)
    requires forall id | id in order :: id in table
    ensures var r := FrameEnd(pass, free, created, events, order, table);
      var n := |NonEmpty(Flatten(order, table))|;
      && |r.free| == (if n <= |free| then |free| else n)
      && r.created == created + (if n <= |free| then 0 else n - |free|)
  {
    SubmitAllPool(pass, Submission(free, [], created, events), Flatten(order, table));
  }

  /** A frame without a non-empty batch changes nothing: no event, the same free list. */
  lemma {:induction false} SubmitAllNothingToDraw(pass: RenderPass, st: Submission, bs: seq<Batch>)
    requires NonEmpty(bs) == []
    ensures SubmitAll(pass, st, bs) == st
  {
    if bs != [] {
      SubmitAllNothingToDraw(pass, st, bs[..|bs| - 1]);
    }
  }

  lemma EmptyFrame(pass: RenderPass, free: seq<VertexBuffer>, created: nat, events: seq<Event>,
                   order: seq<TextureId>, table: map<TextureId, seq<Batch>>)
    requires forall id | id in order :: id in table
    requires NonEmpty(Flatten(order, table)) == []
    ensures FrameEnd(pass, free, created, events, order, table) == Submission(free, [], created, events)
  {
    SubmitAllNothingToDraw(pass, Submission(free, [], created, events), Flatten(order, table));
  }

  // ---------------------------------------------------------------------------
  // Buffer ownership: every buffer is in exactly one place

  /** Buffers are distinct handles that were all created earlier. */
  predicate Owned(buffers: seq<VertexBuffer>, created: nat)
  {
    Distinct(buffers) && forall i | 0 <= i < |buffers| :: buffers[i].serial < created
  }

  lemma DistinctMoveToEnd(a: seq<VertexBuffer>, x: VertexBuffer, b: seq<VertexBuffer>)
    requires Distinct(a + [x] + b)
    ensures Distinct(a + b + [x])
  {
    var s := a + [x] + b;
    var t := a + b + [x];
    forall i, j | 0 <= i < j < |t| ensures t[i] != t[j] {
      var i' := if i < |a| then i else if i < |a| + |b| then i + 1 else |a|;
      var j' := if j < |a| then j else if j < |a| + |b| then j + 1 else |a|;
      assert t[i] == s[i'] && t[j] == s[j'];
      assert i' != j';
    }
  }

  /** Submitting one batch keeps every buffer in exactly one place and every
      handle below the number created. */
  lemma SubmitOwned(pass: RenderPass, st: Submission, b: Batch)
    requires Owned(st.free + st.used, st.created)
    ensures var r := Submit(pass, st, b); Owned(r.free + r.used, r.created)
  {
    if b.instanceCount != 0 {
      if st.free == [] {
        var s := st.used + [VertexBuffer(st.created)];
        assert st.free + st.used == st.used;
        forall i, j | 0 <= i < j < |s| ensures s[i] != s[j] {
          if j == |s| - 1 {
            assert s[i].serial < st.created;
          } else {
            assert s[i] == st.used[i] && s[j] == st.used[j];
          }
        }
      } else {
        var n := |st.free|;
        var x := st.free[n - 1];
        assert st.free == st.free[..n - 1] + [x];
        DistinctMoveToEnd(st.free[..n - 1], x, st.used);
        assert st.free[..n - 1] + (st.used + [x]) == st.free[..n - 1] + st.used + [x];
        var t := st.free[..n - 1] + st.used + [x];
        forall i | 0 <= i < |t| ensures t[i].serial < st.created {
          assert t[i] in st.free + st.used;
        }
      }
    }
  }

  /** A buffer taken this frame is never also on the free list, never taken
      twice, and every handle stays below the number created. */
  lemma {:induction false} SubmitAllOwned(pass: RenderPass, st: Submission, bs: seq<Batch>)
    requires Owned(st.free + st.used, st.created)
    ensures var r := SubmitAll(pass, st, bs); Owned(r.free + r.used, r.created)
  {
    if bs != [] {
      SubmitAllOwned(pass, st, bs[..|bs| - 1]);
      SubmitOwned(pass, SubmitAll(pass, st, bs[..|bs| - 1]), bs[|bs| - 1]);
    }
  }

  /** Ownership survives a whole frame end. */
  lemma FrameEndOwned(pass: RenderPass, free: seq<VertexBuffer>, created: nat, events: seq<Event>,
                      order: seq<TextureId>, table: map<TextureId, seq<Batch>>)
    requires forall id | id in order :: id in table
    requires Owned(free, created)
    ensures var r := FrameEnd(pass, free, created, events, order, table); Owned(r.free, r.created)
  {
    assert free + [] == free;
    SubmitAllOwned(pass, Submission(free, [], created, events), Flatten(order, table));
  }
}
