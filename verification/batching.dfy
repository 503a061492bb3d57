/** Value-level model of the sprite batch accumulator: the vertex layout of one
    quad, texture-coordinate spans, and the per-texture list of fixed-capacity
    batches that every draw request appends to. */
module Batching {

  datatype Option<+T> = None | Some(value: T)

  const MAX_SPRITES: nat := 1000
  const FLOATS_PER_VERTEX: nat := 7
  const FLOATS_PER_SPRITE: nat := 4 * FLOATS_PER_VERTEX
  const INDICES_PER_SPRITE: nat := 6
  /** Length of one batch's vertex staging buffer. */
  const BATCH_FLOATS: nat := MAX_SPRITES * FLOATS_PER_SPRITE

  datatype Rect = Rect(x: real, y: real, width: real, height: real)
  datatype Color = Color(r: real, g: real, b: real)
  /** A texture id, the key of the per-texture tables. Ids are only ever
      compared, so their representation is left open. */
  type TextureId(==)

  /** A texture is identified by `id`; its size divides source rectangles into UVs. */
  datatype Texture = Texture(id: TextureId, width: real, height: real)
  /** Opaque handle for a compiled sprite pipeline. */
  datatype Pipeline = Pipeline(serial: nat)
  datatype UvSpan = UvSpan(u0: real, v0: real, u1: real, v1: real)
  /** One vertex as laid out in the staging buffer: position, texture coordinate, colour. */
  datatype Vertex = Vertex(x: real, y: real, u: real, v: real, r: real, g: real, b: real)

  const WHITE := Color(1.0, 1.0, 1.0)
  /** The whole texture: what `drawSprite` samples. */
  const UNIT_UV := UvSpan(0.0, 0.0, 1.0, 1.0)

  /** Texture coordinates of a source rectangle given in texels. Scaling the span
      back by the texture size gives the source rectangle again. */
  function SourceUv(texture: Texture, source: Rect): (uv: UvSpan)
    requires texture.width != 0.0 && texture.height != 0.0
    ensures uv.u0 * texture.width == source.x && uv.v0 * texture.height == source.y
    ensures (uv.u1 - uv.u0) * texture.width == source.width
    ensures (uv.v1 - uv.v0) * texture.height == source.height
  {
    UvSpan(source.x / texture.width, source.y / texture.height,
           (source.x + source.width) / texture.width,
           (source.y + source.height) / texture.height)
  }

  /** The four corners of a quad in the order top left, top right, bottom right,
      bottom left, each carrying its texture coordinate and the tint. */
  function Corners(rect: Rect, uv: UvSpan, color: Color): seq<Vertex>
  {
    [ Vertex(rect.x, rect.y, uv.u0, uv.v0, color.r, color.g, color.b),
      Vertex(rect.x + rect.width, rect.y, uv.u1, uv.v0, color.r, color.g, color.b),
      Vertex(rect.x + rect.width, rect.y + rect.height, uv.u1, uv.v1, color.r, color.g, color.b),
      Vertex(rect.x, rect.y + rect.height, uv.u0, uv.v1, color.r, color.g, color.b) ]
  }

  function VertexFloats(v: Vertex): seq<real>
  {
    [v.x, v.y, v.u, v.v, v.r, v.g, v.b]
  }

  /** The 28 floats one quad occupies in a batch's staging buffer. */
  function QuadFloats(rect: Rect, uv: UvSpan, color: Color): (q: seq<real>)
    ensures |q| == FLOATS_PER_SPRITE
  {
    var c := Corners(rect, uv, color);
    VertexFloats(c[0]) + VertexFloats(c[1]) + VertexFloats(c[2]) + VertexFloats(c[3])
  }

  /** Each of the four vertices of a quad holds its corner of the rectangle,
      its corner of the UV span and the colour, clockwise from the top left. */
  lemma QuadLayout(rect: Rect, uv: UvSpan, color: Color)
    ensures var q := QuadFloats(rect, uv, color);
      && q[0..4] == [rect.x, rect.y, uv.u0, uv.v0]
      && q[7..11] == [rect.x + rect.width, rect.y, uv.u1, uv.v0]
      && q[14..18] == [rect.x + rect.width, rect.y + rect.height, uv.u1, uv.v1]
      && q[21..25] == [rect.x, rect.y + rect.height, uv.u0, uv.v1]
      && q[4..7] == q[11..14] == q[18..21] == q[25..28] == [color.r, color.g, color.b]
  {
  }

  /** The quad `drawSprite` writes: unit UVs at the corners (0,0), (1,0), (1,1),
      (0,1) and opaque white at every vertex. */
  lemma SpriteQuadLayout(rect: Rect)
    ensures QuadFloats(rect, UNIT_UV, WHITE) ==
      [ rect.x, rect.y, 0.0, 0.0, 1.0, 1.0, 1.0,
        rect.x + rect.width, rect.y, 1.0, 0.0, 1.0, 1.0, 1.0,
        rect.x + rect.width, rect.y + rect.height, 1.0, 1.0, 1.0, 1.0, 1.0,
        rect.x, rect.y + rect.height, 0.0, 1.0, 1.0, 1.0, 1.0 ]
  {
  }

  /** The quad `drawSpriteSource` writes: (u0,v0), (u1,v0), (u1,v1), (u0,v1) at
      the corners and the tint replicated at every vertex. */
  lemma SourceQuadLayout(texture: Texture, rect: Rect, source: Rect, color: Color)
    requires texture.width != 0.0 && texture.height != 0.0
    ensures var uv := SourceUv(texture, source);
      QuadFloats(rect, uv, color) ==
      [ rect.x, rect.y, uv.u0, uv.v0, color.r, color.g, color.b,
        rect.x + rect.width, rect.y, uv.u1, uv.v0, color.r, color.g, color.b,
        rect.x + rect.width, rect.y + rect.height, uv.u1, uv.v1, color.r, color.g, color.b,
        rect.x, rect.y + rect.height, uv.u0, uv.v1, color.r, color.g, color.b ]
  {
  }

  /** A source rectangle covering the whole texture samples exactly the unit square. */
  lemma FullSourceIsUnit(texture: Texture)
    requires texture.width != 0.0 && texture.height != 0.0
    ensures SourceUv(texture, Rect(0.0, 0.0, texture.width, texture.height)) == UNIT_UV
  {
  }

  /** The right half of the top half of a 32x32 texture. */
  lemma SubRegionUv(id: TextureId)
    ensures SourceUv(Texture(id, 32.0, 32.0), Rect(16.0, 0.0, 16.0, 16.0)) == UvSpan(0.5, 0.0, 1.0, 0.5)
  {
  }

  /** `s` with `w` written over it starting at `offset`. */
  function Splice(s: seq<real>, offset: nat, w: seq<real>): (r: seq<real>)
    requires offset + |w| <= |s|
    ensures |r| == |s|
    ensures r[offset..offset + |w|] == w
    ensures r[..offset] == s[..offset] && r[offset + |w|..] == s[offset + |w|..]
  {
    s[..offset] + w + s[offset + |w|..]
  }

  /** Writing two adjacent runs is writing their concatenation. */
  lemma SpliceAdjacent(s: seq<real>, offset: nat, w1: seq<real>, w2: seq<real>)
    requires offset + |w1| + |w2| <= |s|
    ensures Splice(Splice(s, offset, w1), offset + |w1|, w2) == Splice(s, offset, w1 + w2)
  {
    var a := Splice(Splice(s, offset, w1), offset + |w1|, w2);
    var b := Splice(s, offset, w1 + w2);
    assert |a| == |b|;
    forall k | 0 <= k < |a| ensures a[k] == b[k] {
      if k < offset {
        assert a[k] == a[..offset][k];
      } else if k < offset + |w1| {
        assert a[k] == a[..offset + |w1|][k];
      } else if k < offset + |w1| + |w2| {
      } else {
        assert a[k] == a[offset + |w1| + |w2|..][k - offset - |w1| - |w2|];
        assert b[k] == b[offset + |w1| + |w2|..][k - offset - |w1| - |w2|];
      }
    }
  }

  /** One batch: the pipeline it is drawn with, the number of quads written so
      far, and its staging buffer of MAX_SPRITES quads. */
  datatype Batch = Batch(pipeline: Pipeline, instanceCount: nat, vertexData: seq<real>)

  /** A freshly opened batch: no quads, a zero-filled staging buffer. */
  function EmptyBatch(pipeline: Pipeline): Batch
  {
    Batch(pipeline, 0, seq(BATCH_FLOATS, _ => 0.0))
  }

  predicate Fits(b: Batch)
  {
    b.instanceCount <= MAX_SPRITES && |b.vertexData| == BATCH_FLOATS
  }

  /** The capacity invariant of one texture's batch list: it is non-empty, every
      batch but the last is sealed at MAX_SPRITES, and the last is still open. */
  predicate WellFormed(bs: seq<Batch>)
  {
    && |bs| > 0
    && (forall i | 0 <= i < |bs| :: Fits(bs[i]))
    && (forall i | 0 <= i < |bs| - 1 :: bs[i].instanceCount == MAX_SPRITES)
    && bs[|bs| - 1].instanceCount < MAX_SPRITES
  }

  /** A batch after its next slot receives `quad`: the 28 floats at offset
      instanceCount * 28 are overwritten and the count goes up by one. */
  function Fill(b: Batch, quad: seq<real>): (f: Batch)
    requires Fits(b) && b.instanceCount < MAX_SPRITES && |quad| == FLOATS_PER_SPRITE
    ensures Fits(f) && f.pipeline == b.pipeline
  {
    Batch(b.pipeline, b.instanceCount + 1,
          Splice(b.vertexData, b.instanceCount * FLOATS_PER_SPRITE, quad))
  }

  /** The list with `quad` written into the next slot of its last batch. */
  function Filled(bs: seq<Batch>, quad: seq<real>): seq<Batch>
    requires bs != [] && Fits(bs[|bs| - 1]) && bs[|bs| - 1].instanceCount < MAX_SPRITES
    requires |quad| == FLOATS_PER_SPRITE
  {
    bs[..|bs| - 1] + [Fill(bs[|bs| - 1], quad)]
  }

  /** The batch list after one draw request: the quad goes into slot
      `instanceCount` of the last batch (opening one if the list is empty), and a
      fresh batch is appended as soon as that batch reaches MAX_SPRITES. */
  function Append(bs: seq<Batch>, pipeline: Pipeline, quad: seq<real>): (r: seq<Batch>)
    requires |quad| == FLOATS_PER_SPRITE
    requires bs == [] || WellFormed(bs)
    ensures WellFormed(r)
    ensures |bs| <= |r| <= |bs| + 2
  {
    var open := if bs == [] then [EmptyBatch(pipeline)] else bs;
    var written := Filled(open, quad);
    if written[|written| - 1].instanceCount >= MAX_SPRITES then written + [EmptyBatch(pipeline)] else written
  }

  /** The quad in slot `k` of a staging buffer. */
  function Slot(data: seq<real>, k: nat): seq<real>
    requires (k + 1) * FLOATS_PER_SPRITE <= |data|
  {
    data[k * FLOATS_PER_SPRITE .. (k + 1) * FLOATS_PER_SPRITE]
  }

  /** The quads a batch holds, in slot order. */
  function BatchQuads(b: Batch): seq<seq<real>>
    requires Fits(b)
  {
    seq(b.instanceCount, k requires 0 <= k < b.instanceCount => Slot(b.vertexData, k))
  }

  /** The quads a batch list holds, batch after batch: what will be drawn. */
  function Quads(bs: seq<Batch>): seq<seq<real>>
    requires forall i | 0 <= i < |bs| :: Fits(bs[i])
  {
    if bs == [] then [] else Quads(bs[..|bs| - 1]) + BatchQuads(bs[|bs| - 1])
  }

  lemma QuadsSnoc(bs: seq<Batch>, b: Batch)
    requires forall i | 0 <= i < |bs| :: Fits(bs[i])
    requires Fits(b)
    ensures Quads(bs + [b]) == Quads(bs) + BatchQuads(b)
  {
    assert (bs + [b])[..|bs|] == bs;
  }

  /** Writing slot `instanceCount` and counting it adds exactly that quad after
      the ones already held. */
  lemma FilledQuads(b: Batch, quad: seq<real>)
    requires Fits(b) && b.instanceCount < MAX_SPRITES && |quad| == FLOATS_PER_SPRITE
    ensures BatchQuads(Fill(b, quad)) == BatchQuads(b) + [quad]
  {
    var off := b.instanceCount * FLOATS_PER_SPRITE;
    var f := Fill(b, quad);
    var d := f.vertexData;
    assert d == Splice(b.vertexData, off, quad);
    var lhs := BatchQuads(f);
    var rhs := BatchQuads(b) + [quad];
    assert |lhs| == |rhs|;
    forall k | 0 <= k < |lhs| ensures lhs[k] == rhs[k] {
      if k < b.instanceCount {
        var lo, hi := k * FLOATS_PER_SPRITE, (k + 1) * FLOATS_PER_SPRITE;
        assert hi <= off;
        assert d[..off] == b.vertexData[..off];
        assert Slot(d, k) == d[..off][lo..hi] == b.vertexData[..off][lo..hi] == Slot(b.vertexData, k);
      } else {
        assert Slot(d, k) == d[off..off + |quad|];
      }
    }
  }

  lemma EmptyBatchQuads(pipeline: Pipeline)
    ensures Fits(EmptyBatch(pipeline)) && BatchQuads(EmptyBatch(pipeline)) == []
  {
  }

  /** Draw order is preserved: after a draw, the list holds the quads it held
      before followed by the new one; a quad is never split or reordered. */
  lemma {:induction false} AppendQuads(bs: seq<Batch>, pipeline: Pipeline, quad: seq<real>)
    requires |quad| == FLOATS_PER_SPRITE
    requires bs == [] || WellFormed(bs)
    ensures Quads(Append(bs, pipeline, quad)) == Quads(bs) + [quad]
  {
    var open := if bs == [] then [EmptyBatch(pipeline)] else bs;
    EmptyBatchQuads(pipeline);
    assert Quads(open) == Quads(bs) by {
      if bs == [] {
        QuadsSnoc([], EmptyBatch(pipeline));
      }
    }
    var n := |open|;
    var last := open[n - 1];
    var filled := Fill(last, quad);
    var prefix := open[..n - 1];
    assert open == prefix + [last];
    FilledQuads(last, quad);
    QuadsSnoc(prefix, last);
    QuadsSnoc(prefix, filled);
    var written := Filled(open, quad);
    assert written == prefix + [filled];
    assert Quads(written) == Quads(bs) + [quad];
    if filled.instanceCount >= MAX_SPRITES {
      QuadsSnoc(written, EmptyBatch(pipeline));
      assert Append(bs, pipeline, quad) == written + [EmptyBatch(pipeline)];
    } else {
      assert Append(bs, pipeline, quad) == written;
    }
  }

  /** A run of sealed batches holds MAX_SPRITES quads each. */
  lemma {:induction false} SealedQuadCount(bs: seq<Batch>)
    requires forall i | 0 <= i < |bs| :: Fits(bs[i]) && bs[i].instanceCount == MAX_SPRITES
    ensures |Quads(bs)| == |bs| * MAX_SPRITES
  {
    if bs != [] {
      SealedQuadCount(bs[..|bs| - 1]);
    }
  }

  /** The number of quads in a well-formed list fixes its shape. */
  lemma WellFormedQuadCount(bs: seq<Batch>)
    requires WellFormed(bs)
    ensures |Quads(bs)| == (|bs| - 1) * MAX_SPRITES + bs[|bs| - 1].instanceCount
  {
    SealedQuadCount(bs[..|bs| - 1]);
  }

  /** The batch list after a sequence of draws for one texture, in order. */
  function AppendAll(bs: seq<Batch>, pipeline: Pipeline, quads: seq<seq<real>>): (r: seq<Batch>)
    requires bs == [] || WellFormed(bs)
    requires forall i | 0 <= i < |quads| :: |quads[i]| == FLOATS_PER_SPRITE
    ensures quads == [] ==> r == bs
    ensures quads != [] ==> WellFormed(r)
  {
    if quads == [] then bs
    else Append(AppendAll(bs, pipeline, quads[..|quads| - 1]), pipeline, quads[|quads| - 1])
  }

  /** N draws to one texture in a fresh frame: the list holds exactly those quads
      in submission order, in N / MAX_SPRITES sealed batches followed by one open
      batch holding the remaining N % MAX_SPRITES. */
  lemma {:induction false} DrawRun(pipeline: Pipeline, quads: seq<seq<real>>)
    requires quads != []
    requires forall i | 0 <= i < |quads| :: |quads[i]| == FLOATS_PER_SPRITE
    ensures var r := AppendAll([], pipeline, quads);
      && Quads(r) == quads
      && |r| == |quads| / MAX_SPRITES + 1
      && r[|r| - 1].instanceCount == |quads| % MAX_SPRITES
      && (forall i | 0 <= i < |r| - 1 :: r[i].instanceCount == MAX_SPRITES)
  {
    DrawRunQuads(pipeline, quads);
    var r := AppendAll([], pipeline, quads);
    WellFormedQuadCount(r);
    var c := r[|r| - 1].instanceCount;
    assert |quads| == (|r| - 1) * MAX_SPRITES + c && c < MAX_SPRITES;
  }

  lemma {:induction false} DrawRunQuads(pipeline: Pipeline, quads: seq<seq<real>>)
    requires forall i | 0 <= i < |quads| :: |quads[i]| == FLOATS_PER_SPRITE
    ensures Quads(AppendAll([], pipeline, quads)) == quads
  {
    if quads != [] {
      var init := quads[..|quads| - 1];
      var q := quads[|quads| - 1];
      assert quads == init + [q];
      var before := AppendAll([], pipeline, init);
      var after := Append(before, pipeline, q);
      assert AppendAll([], pipeline, quads) == after by {
        AppendAllLast([], pipeline, quads);
      }
      assert Quads(after) == quads by {
        DrawRunQuads(pipeline, init);
        AppendQuads(before, pipeline, q);
      }
    }
  }

  lemma AppendAllLast(bs: seq<Batch>, pipeline: Pipeline, quads: seq<seq<real>>)
    requires bs == [] || WellFormed(bs)
    requires quads != []
    requires forall i | 0 <= i < |quads| :: |quads[i]| == FLOATS_PER_SPRITE
    ensures AppendAll(bs, pipeline, quads)
         == Append(AppendAll(bs, pipeline, quads[..|quads| - 1]), pipeline, quads[|quads| - 1])
  {
  }

  /** Fewer than MAX_SPRITES draws fit in a single batch. */
  lemma OneBatchBelowCapacity(pipeline: Pipeline, quads: seq<seq<real>>)
    requires 0 < |quads| < MAX_SPRITES
    requires forall i | 0 <= i < |quads| :: |quads[i]| == FLOATS_PER_SPRITE
    ensures var r := AppendAll([], pipeline, quads); |r| == 1 && r[0].instanceCount == |quads|
  {
    DrawRun(pipeline, quads);
  }

  /** The MAX_SPRITES-th draw seals the batch and already opens the next one, so
      exactly MAX_SPRITES draws leave a sealed batch and an empty one, and one
      more draw leaves a sealed batch and a batch holding one quad. */
  lemma SpillAtCapacity(pipeline: Pipeline, quads: seq<seq<real>>)
    requires |quads| == MAX_SPRITES || |quads| == MAX_SPRITES + 1
    requires forall i | 0 <= i < |quads| :: |quads[i]| == FLOATS_PER_SPRITE
    ensures var r := AppendAll([], pipeline, quads);
      && |r| == 2
      && r[0].instanceCount == MAX_SPRITES
      && r[1].instanceCount == |quads| - MAX_SPRITES
  {
    DrawRun(pipeline, quads);
  }

  /** The per-frame batch table after a draw to texture `id`. */
  function TableAppend(table: map<TextureId, seq<Batch>>, id: TextureId, pipeline: Pipeline, quad: seq<real>): (t: map<TextureId, seq<Batch>>)
    requires |quad| == FLOATS_PER_SPRITE
    requires id in table ==> WellFormed(table[id])
    ensures t.Keys == table.Keys + {id}
    ensures forall other | other in table && other != id :: t[other] == table[other]
  {
    table[id := Append(if id in table then table[id] else [], pipeline, quad)]
  }

  /** Draws to different textures do not interact: their order can be swapped
      without changing the table, so each texture's list depends only on its own
      draws. */
  lemma DrawsToDistinctTexturesCommute(table: map<TextureId, seq<Batch>>,
                                       a: TextureId, pa: Pipeline, qa: seq<real>,
                                       b: TextureId, pb: Pipeline, qb: seq<real>)
    requires a != b
    requires |qa| == FLOATS_PER_SPRITE && |qb| == FLOATS_PER_SPRITE
    requires TableWellFormed(table)
    ensures TableAppend(TableAppend(table, a, pa, qa), b, pb, qb)
         == TableAppend(TableAppend(table, b, pb, qb), a, pa, qa)
  {
    var la := Append(if a in table then table[a] else [], pa, qa);
    var lb := Append(if b in table then table[b] else [], pb, qb);
    var ta, tb := TableAppend(table, a, pa, qa), TableAppend(table, b, pb, qb);
    assert (if b in ta then ta[b] else []) == (if b in table then table[b] else []);
    assert (if a in tb then tb[a] else []) == (if a in table then table[a] else []);
    UpdatesCommute(table, a, la, b, lb);
  }

  lemma UpdatesCommute<K, V>(m: map<K, V>, a: K, va: V, b: K, vb: V)
    requires a != b
    ensures m[a := va][b := vb] == m[b := vb][a := va]
  {
  }

  /** No element occurs twice. */
  predicate Distinct<T(==)>(s: seq<T>)
  {
    forall i, j | 0 <= i < j < |s| :: s[i] != s[j]
  }

  /** Every texture's batch list in the table is well formed. */
  predicate TableWellFormed(table: map<TextureId, seq<Batch>>)
  {
    forall id | id in table :: WellFormed(table[id])
  }

  /** The renderer's table invariant: every texture in the table has a pipeline
      and every batch in its list uses that pipeline. */
  predicate Consistent(table: map<TextureId, seq<Batch>>, pipelines: map<TextureId, Pipeline>)
  {
    forall id | id in table ::
      && id in pipelines
      && forall i | 0 <= i < |table[id]| :: table[id][i].pipeline == pipelines[id]
  }

  /** A draw keeps every list of the table well formed. */
  lemma TableAppendWellFormed(table: map<TextureId, seq<Batch>>, id: TextureId, pipeline: Pipeline, quad: seq<real>)
    requires TableWellFormed(table) && |quad| == FLOATS_PER_SPRITE
    ensures TableWellFormed(TableAppend(table, id, pipeline, quad))
  {
  }

  /** Opening a texture's list with one empty batch keeps every list well formed. */
  lemma TableOpenWellFormed(table: map<TextureId, seq<Batch>>, id: TextureId, pipeline: Pipeline)
    requires TableWellFormed(table)
    ensures TableWellFormed(table[id := [EmptyBatch(pipeline)]])
  {
  }

  /** A draw done in two steps, writing the quad into the last batch and then,
      if that batch is full, putting an empty batch after it, is the draw
      TableAppend describes. */
  lemma FillThenSeal(table: map<TextureId, seq<Batch>>, id: TextureId, pipeline: Pipeline, quad: seq<real>, sealed: bool)
    requires TableWellFormed(table) && id in table && |quad| == FLOATS_PER_SPRITE
    requires sealed <==> Fill(table[id][|table[id]| - 1], quad).instanceCount >= MAX_SPRITES
    ensures var filled := table[id := Filled(table[id], quad)];
      && (if sealed then filled[id := filled[id] + [EmptyBatch(pipeline)]] else filled)
         == TableAppend(table, id, pipeline, quad)
      && TableWellFormed(TableAppend(table, id, pipeline, quad))
  {
    var w := Filled(table[id], quad);
    assert table[id := w][id := w + [EmptyBatch(pipeline)]] == table[id := w + [EmptyBatch(pipeline)]];
    TableAppendWellFormed(table, id, pipeline, quad);
  }

  /** Every batch a draw opens uses the pipeline it was drawn with. */
  lemma AppendPipeline(bs: seq<Batch>, pipeline: Pipeline, quad: seq<real>)
    requires |quad| == FLOATS_PER_SPRITE
    requires bs == [] || WellFormed(bs)
    requires forall i | 0 <= i < |bs| :: bs[i].pipeline == pipeline
    ensures var r := Append(bs, pipeline, quad);
      forall i | 0 <= i < |r| :: r[i].pipeline == pipeline
  {
  }

  /** A draw with the texture's own pipeline keeps the table consistent. */
  lemma TableAppendConsistent(table: map<TextureId, seq<Batch>>, pipelines: map<TextureId, Pipeline>,
                              id: TextureId, quad: seq<real>)
    requires TableWellFormed(table) && Consistent(table, pipelines)
    requires id in pipelines && |quad| == FLOATS_PER_SPRITE
    ensures Consistent(TableAppend(table, id, pipelines[id], quad), pipelines)
  {
    AppendPipeline(if id in table then table[id] else [], pipelines[id], quad);
  }

  /** Registering a pipeline for a texture that has no batches yet keeps the
      table consistent. */
  lemma ConsistentNewPipeline(table: map<TextureId, seq<Batch>>, pipelines: map<TextureId, Pipeline>,
                              id: TextureId, p: Pipeline)
    requires Consistent(table, pipelines)
    requires id !in pipelines
    ensures Consistent(table, pipelines[id := p])
  {
  }

  /** Opening a texture's list with one empty batch on its own pipeline keeps
      the table consistent. */
  lemma ConsistentOpen(table: map<TextureId, seq<Batch>>, pipelines: map<TextureId, Pipeline>, id: TextureId)
    requires Consistent(table, pipelines) && id in pipelines
    ensures Consistent(table[id := [EmptyBatch(pipelines[id])]], pipelines)
  {
  }

  /** A draw into a well-formed list fills its last batch and, when that batch
      reaches capacity, opens an empty one after it. */
  lemma AppendOpen(bs: seq<Batch>, pipeline: Pipeline, quad: seq<real>)
    requires |quad| == FLOATS_PER_SPRITE && WellFormed(bs)
    ensures var f := Fill(bs[|bs| - 1], quad);
      Append(bs, pipeline, quad)
        == bs[..|bs| - 1] + [f] + (if f.instanceCount >= MAX_SPRITES then [EmptyBatch(pipeline)] else [])
  {
  }

  /** Drawing into a list that was just opened with an empty batch is drawing
      into no list at all. */
  lemma AppendToOpened(pipeline: Pipeline, quad: seq<real>)
    requires |quad| == FLOATS_PER_SPRITE
    ensures Append([EmptyBatch(pipeline)], pipeline, quad) == Append([], pipeline, quad)
  {
  }

  /** A draw to a texture whose list was just opened with one empty batch is the
      draw to a texture that had no list. */
  lemma TableAppendOpened(table: map<TextureId, seq<Batch>>, id: TextureId, pipeline: Pipeline, quad: seq<real>)
    requires id !in table && |quad| == FLOATS_PER_SPRITE
    ensures TableAppend(table[id := [EmptyBatch(pipeline)]], id, pipeline, quad) == TableAppend(table, id, pipeline, quad)
  {
    AppendToOpened(pipeline, quad);
    var r := Append([], pipeline, quad);
    assert table[id := [EmptyBatch(pipeline)]][id := r] == table[id := r];
  }
}
