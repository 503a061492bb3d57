/** The per-frame table `{ [id]: BatchDrawCall[] }`: each texture id's list of
    batch objects, in the order the ids were first drawn. */
module BatchTables {
  import opened Batching
  import opened BatchDrawCalls

  class BatchTable {
    var lists: map<TextureId, seq<BatchDrawCall>>
    /** The ids in the order they were added: the order `for ... in` visits them. */
    var keys: seq<TextureId>
    /** The table as values. */
    ghost var table: map<TextureId, seq<Batch>>
    /** The batch objects in the table and their staging arrays. */
    ghost var Objects: set<BatchDrawCall>
    ghost var Arrays: set<array<real>>
    /** The position of each staging array. */
    ghost var positions: map<array<real>, Position>

    ghost function Parts(): TableParts
      reads this
    {
      TableParts(lists, keys, table, Batches(), positions)
    }

    ghost function Batches(): set<object>
      reads this
    {
      Objects + Arrays
    }

    /** Every list of batch objects mirrors its list of values. */
    ghost predicate Mirrored()
      reads this, Objects, Arrays
    {
      Tabled(Parts())
    }

    /** The invariant between draws: the table mirrors the values, and every
        list is well formed, so its last batch still has a free slot. */
    ghost predicate Valid()
      reads this, Objects, Arrays
    {
      Mirrored() && TableWellFormed(table)
    }

    constructor()
      ensures Valid() && fresh(this)
      ensures lists == map[] && keys == [] && table == map[] && Objects == {} && Arrays == {}
    {
      lists := map[];
      keys := [];
      table := map[];
      Objects, Arrays := {}, {};
      positions := map[];
      TabledEmpty();
    }

    /** Starts the list of `id` with one fresh, empty batch on `pipeline`: the
        first draw to a texture in a frame. */
    method Open(id: TextureId, pipeline: Pipeline) returns (batch: BatchDrawCall)
      requires Valid() && id !in lists
      modifies this
      ensures Valid()
      ensures lists == old(lists)[id := [batch]]
      ensures table == old(table)[id := [EmptyBatch(pipeline)]] && keys == old(keys) + [id]
      ensures Objects == old(Objects) + {batch} && Arrays == old(Arrays) + {batch.vertexData}
      ensures fresh(batch) && fresh(batch.vertexData)
    {
      label start:
      batch := new BatchDrawCall(pipeline);
      lists, keys, table, Objects, Arrays, positions :=
        lists[id := [batch]], keys + [id], table[id := [EmptyBatch(pipeline)]],
        Objects + {batch}, Arrays + {batch.vertexData}, positions[batch.vertexData := Position(id, 0)];
      OpenedMirrored@start(this, id, batch, pipeline);
      TableOpenWellFormed(old(table), id, pipeline);
    }

    /** Batch `i` of the list of `id`: it holds value `i` of the table's entry. */
    function At(id: TextureId, i: nat): (batch: BatchDrawCall)
      reads this, Objects, Arrays
      requires Valid() && id in lists && i < |lists[id]|
      ensures id in table && |lists[id]| == |table[id]| && batch == lists[id][i]
      ensures batch.View() == table[id][i] && batch.vertexData.Length == BATCH_FLOATS
      ensures batch in Objects && batch.vertexData in Arrays
    {
      TabledEntry(Parts(), id, i);
      assert Fits(table[id][i]);
      lists[id][i]
    }

    /** The batch a draw to `id` writes into: the last one of its list. It is
        always open, and it holds the last value of the table's entry. */
    function Last(id: TextureId): (batch: BatchDrawCall)
      reads this, Objects, Arrays
      requires Valid() && id in lists
      ensures id in table && |lists[id]| == |table[id]| > 0 && batch == lists[id][|lists[id]| - 1]
      ensures batch.View() == table[id][|table[id]| - 1]
      ensures batch.instanceCount < MAX_SPRITES && batch.vertexData.Length == BATCH_FLOATS
      ensures batch in Objects && batch.vertexData in Arrays
    {
      TabledHas(Parts(), id);
      At(id, |lists[id]| - 1)
    }

    /** The keys, in the order they were added, are the ids of the table, each
        exactly once. */
    lemma KeysAreIds()
      requires Valid()
      ensures Distinct(keys) && lists.Keys == table.Keys == set id | id in keys
    {
      TabledKeys(Parts());
    }

    /** The lists of batch objects and of values have the same length. */
    lemma SameLength(id: TextureId)
      requires Valid() && id in lists
      ensures id in table && |lists[id]| == |table[id]|
    {
      TabledHas(Parts(), id);
    }

    /** One draw to `id`: opens its list on the first draw of the frame, then
        writes the quad into its last batch. */
    method Add(id: TextureId, pipeline: Pipeline, rect: Rect, uv: UvSpan, color: Color)
      requires Valid()
      modifies this, Objects, Arrays
      ensures Valid()
      ensures table == TableAppend(old(table), id, pipeline, QuadFloats(rect, uv, color))
      ensures keys == old(keys) + if id in old(table) then [] else [id]
      ensures forall o | o in Objects && o !in old(Objects) :: fresh(o)
      ensures forall a | a in Arrays && a !in old(Arrays) :: fresh(a)
    {
      ghost var before := table;
      OpenIfNew(id, pipeline);
      if id !in before {
        TableAppendOpened(before, id, pipeline, QuadFloats(rect, uv, color));
      }
      var batch := Last(id);
      Put(id, pipeline, batch, rect, uv, color);
    }

    /** Opens the list of `id` with one fresh, empty batch on `pipeline` unless
        this frame already has one. */
    method OpenIfNew(id: TextureId, pipeline: Pipeline)
      requires Valid()
      modifies this
      ensures Valid() && id in lists
      ensures table == if id in old(table) then old(table) else old(table)[id := [EmptyBatch(pipeline)]]
      ensures keys == old(keys) + if id in old(table) then [] else [id]
      ensures forall o | o in Objects && o !in old(Objects) :: fresh(o)
      ensures forall a | a in Arrays && a !in old(Arrays) :: fresh(a)
    {
      KeysAreIds();
      if id !in lists {
        var _ := Open(id, pipeline);
      }
    }

    /** Writes one quad into `id`'s open batch and, once that batch holds
        MAX_SPRITES quads, seals it by putting a fresh batch on `pipeline`
        after it. */
    method Put(id: TextureId, pipeline: Pipeline, batch: BatchDrawCall, rect: Rect, uv: UvSpan, color: Color)
      requires Valid()
      requires id in lists && batch == Last(id)
      modifies this, batch, batch.vertexData
      ensures Valid()
      ensures id in old(table) && table == TableAppend(old(table), id, pipeline, QuadFloats(rect, uv, color))
      ensures keys == old(keys)
      ensures forall o | o in Objects && o !in old(Objects) :: fresh(o)
      ensures forall a | a in Arrays && a !in old(Arrays) :: fresh(a)
    {
      ghost var before := table;
      FillLast(id, batch, rect, uv, color);
      ghost var sealed := batch.instanceCount >= MAX_SPRITES;
      if batch.instanceCount >= MAX_SPRITES {
        Seal(id, pipeline);
      }
      FillThenSeal(before, id, pipeline, QuadFloats(rect, uv, color), sealed);
    }

    /** Writes one quad into the last batch of `id`. */
    method FillLast(id: TextureId, batch: BatchDrawCall, rect: Rect, uv: UvSpan, color: Color)
      requires Mirrored()
      requires id in lists && |lists[id]| > 0 && batch == lists[id][|lists[id]| - 1]
      requires batch.instanceCount < MAX_SPRITES && batch.vertexData.Length == BATCH_FLOATS
      modifies this, batch, batch.vertexData
      ensures Mirrored()
      ensures id in old(table) && |old(table)[id]| == |old(lists)[id]|
      ensures old(table)[id][|old(table)[id]| - 1] == old(batch.View())
      ensures table == old(table)[id := Filled(old(table)[id], QuadFloats(rect, uv, color))]
      ensures lists == old(lists) && keys == old(keys)
      ensures Objects == old(Objects) && Arrays == old(Arrays)
      ensures batch.instanceCount == old(batch.instanceCount) + 1
    {
      TabledHas(Parts(), id);
      TabledEntry(Parts(), id, |lists[id]| - 1);
      label before:
      WriteQuad(batch, rect, uv, color);
      table := table[id := Filled(table[id], QuadFloats(rect, uv, color))];
      FilledMirrored@before(this, id, QuadFloats(rect, uv, color));
    }

    /** Seals the last batch of `id` by putting a fresh, empty batch on
        `pipeline` after it. */
    method Seal(id: TextureId, pipeline: Pipeline)
      requires Mirrored() && id in lists
      modifies this
      ensures Mirrored()
      ensures id in old(table) && table == old(table)[id := old(table)[id] + [EmptyBatch(pipeline)]]
      ensures keys == old(keys)
      ensures forall o | o in Objects && o !in old(Objects) :: fresh(o)
      ensures forall a | a in Arrays && a !in old(Arrays) :: fresh(a)
    {
      var next := new BatchDrawCall(pipeline);
      Attach(id, next, pipeline);
    }

    /** Puts `next`, an empty batch on `pipeline` that the table does not hold
        yet, after the list of `id`. */
    method Attach(id: TextureId, next: BatchDrawCall, pipeline: Pipeline)
      requires Mirrored() && id in lists
      requires next !in Objects && next.vertexData !in Arrays && next.vertexData !in positions
      requires next.View() == EmptyBatch(pipeline)
      modifies this
      ensures Mirrored()
      ensures id in old(table) && table == old(table)[id := old(table)[id] + [EmptyBatch(pipeline)]]
      ensures keys == old(keys)
      ensures Objects == old(Objects) + {next} && Arrays == old(Arrays) + {next.vertexData}
    {
      TabledHas(Parts(), id);
      label start:
      lists, table, Objects, Arrays, positions :=
        lists[id := lists[id] + [next]], table[id := table[id] + [EmptyBatch(pipeline)]],
        Objects + {next}, Arrays + {next.vertexData}, positions[next.vertexData := Position(id, |lists[id]|)];
      SealedMirrored@start(this, id, next, pipeline);
    }
  }

  /** The table still mirrors its values after `id` is opened with a fresh,
      empty batch. */
  twostate lemma OpenedMirrored(tb: BatchTable, new id: TextureId, new b: BatchDrawCall, new p: Pipeline)
    requires old(tb.Mirrored()) && id !in old(tb.lists) && unchanged(old(tb.Batches()))
    requires fresh(b) && fresh(b.vertexData) && b.View() == EmptyBatch(p)
    requires tb.lists == old(tb.lists)[id := [b]] && tb.keys == old(tb.keys) + [id]
    requires tb.table == old(tb.table)[id := [EmptyBatch(p)]]
    requires tb.Objects == old(tb.Objects) + {b} && tb.Arrays == old(tb.Arrays) + {b.vertexData}
    requires tb.positions == old(tb.positions)[b.vertexData := Position(id, 0)]
    ensures tb.Mirrored()
  {
    TabledOpenFrom(old(tb.Parts()), id, b, p, tb.Parts());
  }

  /** The table still mirrors its values after a quad is written into the last
      batch of `id`. */
  twostate lemma FilledMirrored(tb: BatchTable, new id: TextureId, new quad: seq<real>)
    requires old(tb.Mirrored()) && id in old(tb.lists) && id in old(tb.table)
    requires old(Synced(id, tb.lists[id], tb.table[id], tb.Batches(), tb.positions))
    requires |old(tb.lists[id])| > 0 && |quad| == FLOATS_PER_SPRITE
    requires var last := old(tb.lists[id][|tb.lists[id]| - 1]);
      && unchanged(old(tb.Batches()) - {last, last.vertexData})
      && old(last.instanceCount) < MAX_SPRITES && last.vertexData.Length == BATCH_FLOATS
      && last.View() == Fill(old(last.View()), quad)
    requires tb.lists == old(tb.lists) && tb.keys == old(tb.keys)
    requires tb.Objects == old(tb.Objects) && tb.Arrays == old(tb.Arrays) && tb.positions == old(tb.positions)
    requires tb.table == old(tb.table[id := Filled(tb.table[id], quad)])
    ensures tb.Mirrored()
  {
    TabledFill(old(tb.Parts()), id, quad);
  }

  /** The table still mirrors its values after a fresh, empty batch is put
      after the list of `id`. */
  twostate lemma SealedMirrored(tb: BatchTable, new id: TextureId, new b: BatchDrawCall, new p: Pipeline)
    requires old(tb.Mirrored()) && id in old(tb.lists) && id in old(tb.table) && unchanged(old(tb.Batches()))
    requires b.vertexData !in old(tb.positions) && b.View() == EmptyBatch(p)
    requires tb.lists == old(tb.lists[id := tb.lists[id] + [b]]) && tb.keys == old(tb.keys)
    requires tb.table == old(tb.table[id := tb.table[id] + [EmptyBatch(p)]])
    requires tb.Objects == old(tb.Objects) + {b} && tb.Arrays == old(tb.Arrays) + {b.vertexData}
    requires tb.positions == old(tb.positions)[b.vertexData := Position(id, old(|tb.lists[id]|))]
    ensures tb.Mirrored()
  {
    TabledSealFrom(old(tb.Parts()), id, b, p, tb.Parts());
  }
}
