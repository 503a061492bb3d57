/** The batch objects of the sprite renderer: a batch draw call owns a staging
    array for MAX_SPRITES quads and counts the quads written into it. A frame's
    batches are kept by texture id; `Synced` ties every batch object to the value
    the model in Batching talks about. */
module BatchDrawCalls {
  import opened Batching

  /** One batch: a staging array for MAX_SPRITES quads, the number of quads
      written so far, and the pipeline that will draw them. */
  class BatchDrawCall {
    const pipeline: Pipeline
    const vertexData: array<real>
    var instanceCount: nat

    /** The batch as a value: what the model in Batching talks about. */
    ghost function View(): Batch
      reads this, vertexData
    {
      Batch(pipeline, instanceCount, vertexData[..])
    }

    constructor(pipeline: Pipeline)
      ensures fresh(vertexData)
      ensures View() == EmptyBatch(pipeline)
    {
      this.pipeline := pipeline;
      vertexData := new real[BATCH_FLOATS](_ => 0.0);
      instanceCount := 0;
    }
  }

  /** Writes one vertex's seven floats at `offset`. */
  method WriteVertex(data: array<real>, offset: nat, v: Vertex)
    requires offset + FLOATS_PER_VERTEX <= data.Length
    modifies data
    ensures data[..] == Splice(old(data[..]), offset, VertexFloats(v))
  {
    data[offset + 0] := v.x;
    data[offset + 1] := v.y;
    data[offset + 2] := v.u;
    data[offset + 3] := v.v;
    data[offset + 4] := v.r;
    data[offset + 5] := v.g;
    data[offset + 6] := v.b;
    assert data[offset..offset + FLOATS_PER_VERTEX] == VertexFloats(v);
  }

  /** Writes the four corners of a quad into the batch's next free slot and
      counts it. */
  method WriteQuad(batch: BatchDrawCall, rect: Rect, uv: UvSpan, color: Color)
    requires batch.instanceCount < MAX_SPRITES && batch.vertexData.Length == BATCH_FLOATS
    modifies batch, batch.vertexData
    ensures batch.View() == Fill(old(batch.View()), QuadFloats(rect, uv, color))
  {
    var data := batch.vertexData;
    ghost var before := data[..];
    var i := batch.instanceCount * FLOATS_PER_SPRITE;
    var c := Corners(rect, uv, color);
    WriteVertex(data, i, c[0]);
    WriteVertex(data, i + 7, c[1]);
    WriteVertex(data, i + 14, c[2]);
    WriteVertex(data, i + 21, c[3]);
    batch.instanceCount := batch.instanceCount + 1;
    SpliceAdjacent(before, i, VertexFloats(c[0]), VertexFloats(c[1]));
    SpliceAdjacent(before, i, VertexFloats(c[0]) + VertexFloats(c[1]), VertexFloats(c[2]));
    SpliceAdjacent(before, i, VertexFloats(c[0]) + VertexFloats(c[1]) + VertexFloats(c[2]), VertexFloats(c[3]));
  }

  // ---------------------------------------------------------------------------
  // The batch objects of a frame and their values

  /** Where a batch sits in the table: its texture id and its index in that
      texture's list. */
  datatype Position = Position(id: TextureId, index: nat)

  /** The list of `id` mirrors `vs`: one batch object per value, each inside
      `repr` together with its staging array, each array recorded in `where`
      at the batch's own position, and each object holding its value. As
      `where` is a function, no two positions share an array, hence no two
      share a batch object. */
  ghost predicate Synced(id: TextureId, bs: seq<BatchDrawCall>, vs: seq<Batch>,
                         repr: set<object>, where: map<array<real>, Position>)
    reads repr
  {
    && |bs| == |vs|
    && forall i | 0 <= i < |bs| ::
         && bs[i] in repr && bs[i].vertexData in repr
         && bs[i].vertexData in where && where[bs[i].vertexData] == Position(id, i)
         && bs[i].View() == vs[i]
  }

  /** The parts of the per-frame table: the batch objects of each id, the ids
      in the order they were added, the same lists as values, the objects
      involved, and the position of every staging array. */
  datatype TableParts = TableParts(lists: map<TextureId, seq<BatchDrawCall>>, keys: seq<TextureId>,
                                   table: map<TextureId, seq<Batch>>, repr: set<object>,
                                   where: map<array<real>, Position>)

  /** The parts without the last id added. */
  function Rest(t: TableParts): TableParts
    requires t.keys != []
  {
    var id := t.keys[|t.keys| - 1];
    TableParts(t.lists - {id}, t.keys[..|t.keys| - 1], t.table - {id}, t.repr, t.where)
  }

  /** The invariant of the per-frame table: `keys` lists the ids of `lists` in
      the order they were added, each once, `table` has the same ids, and
      every list of objects mirrors its list of values. It is stated one id at
      a time, from the last one added. */
  ghost predicate Tabled(t: TableParts)
    reads t.repr
    decreases |t.keys|
  {
    if t.keys == [] then t.lists == map[] && t.table == map[]
    else
      var id := t.keys[|t.keys| - 1];
      && id in t.lists && id in t.table
      && Synced(id, t.lists[id], t.table[id], t.repr, t.where)
      && Tabled(Rest(t))
  }

  lemma RemoveReplaced<K, V>(m: map<K, V>, k: K, j: K, v: V)
    ensures k == j ==> m[j := v] - {k} == m - {k}
    ensures k != j ==> m[j := v] - {k} == (m - {k})[j := v]
  {
  }

  lemma UpdateSame<K, V>(m: map<K, V>, k: K)
    requires k in m
    ensures m[k := m[k]] == m
  {
  }

  lemma RemoveAdded<K, V>(m: map<K, V>, k: K, v: V)
    requires k !in m
    ensures m[k := v] - {k} == m
  {
  }

  /** Replacing an entry and then dropping the last id added is dropping it
      first and then replacing the entry, unless the two ids are the same. */
  lemma RestReplace(t: TableParts, id: TextureId, bs: seq<BatchDrawCall>, vs: seq<Batch>,
                    repr: set<object>, where: map<array<real>, Position>)
    requires t.keys != []
    ensures var u := TableParts(t.lists[id := bs], t.keys, t.table[id := vs], repr, where);
      Rest(u) == if t.keys[|t.keys| - 1] == id then Rest(t).(repr := repr, where := where)
                 else TableParts(Rest(t).lists[id := bs], Rest(t).keys, Rest(t).table[id := vs], repr, where)
  {
    var k := t.keys[|t.keys| - 1];
    RemoveReplaced(t.lists, k, id, bs);
    RemoveReplaced(t.table, k, id, vs);
  }

  /** Adding a new id and then dropping it again gives back the parts. */
  lemma RestAdd(t: TableParts, id: TextureId, bs: seq<BatchDrawCall>, vs: seq<Batch>,
                repr: set<object>, where: map<array<real>, Position>)
    requires id !in t.lists && id !in t.table
    ensures Rest(TableParts(t.lists[id := bs], t.keys + [id], t.table[id := vs], repr, where))
         == TableParts(t.lists, t.keys, t.table, repr, where)
  {
    RemoveAdded(t.lists, id, bs);
    RemoveAdded(t.table, id, vs);
    assert (t.keys + [id])[..|t.keys|] == t.keys;
  }

  lemma TabledEmpty()
    ensures Tabled(TableParts(map[], [], map[], {}, map[]))
  {
  }

  /** The shape of the invariant without the objects: each key, from the
      last one added, names an entry of both maps. It is stated for any key
      type, so that reasoning about it never looks inside the ids. */
  ghost predicate Keyed<K, A, B>(keys: seq<K>, lists: map<K, A>, table: map<K, B>)
    decreases |keys|
  {
    if keys == [] then lists == map[] && table == map[]
    else
      var id := keys[|keys| - 1];
      id in lists && id in table && Keyed(keys[..|keys| - 1], lists - {id}, table - {id})
  }

  lemma {:induction false} TabledKeyed(t: TableParts)
    requires Tabled(t)
    ensures Keyed(t.keys, t.lists, t.table)
    decreases |t.keys|
  {
    if t.keys != [] {
      TabledKeyed(Rest(t));
    }
  }

  lemma {:induction false} KeyedKeys<K, A, B>(keys: seq<K>, lists: map<K, A>, table: map<K, B>)
    requires Keyed(keys, lists, table)
    ensures Distinct(keys)
    ensures lists.Keys == table.Keys == set id | id in keys
    decreases |keys|
  {
    if keys != [] {
      var id := keys[|keys| - 1];
      var init := keys[..|keys| - 1];
      KeyedKeys(init, lists - {id}, table - {id});
      assert keys == init + [id];
      assert (set x | x in keys) == (set x | x in init) + {id};
      assert lists.Keys == (lists - {id}).Keys + {id};
      assert table.Keys == (table - {id}).Keys + {id};
      forall i, j | 0 <= i < j < |keys| ensures keys[i] != keys[j] {
        if j == |keys| - 1 {
          assert keys[i] in init;
        } else {
          assert keys[i] == init[i] && keys[j] == init[j];
        }
      }
    }
  }

  /** The keys, in order, are the ids of the table, each exactly once. */
  lemma TabledKeys(t: TableParts)
    requires Tabled(t)
    ensures Distinct(t.keys)
    ensures t.lists.Keys == t.table.Keys == set id | id in t.keys
  {
    TabledKeyed(t);
    KeyedKeys(t.keys, t.lists, t.table);
  }

  lemma TabledSameIds(t: TableParts)
    requires Tabled(t)
    ensures t.lists.Keys == t.table.Keys
  {
    TabledKeys(t);
  }

  /** Every id of the table has its entry. */
  lemma {:induction false} TabledHas(t: TableParts, id: TextureId)
    requires Tabled(t) && id in t.lists
    ensures id in t.table && Synced(id, t.lists[id], t.table[id], t.repr, t.where)
    decreases |t.keys|
  {
    if id != t.keys[|t.keys| - 1] {
      TabledHas(Rest(t), id);
    }
  }

  /** What the invariant says about batch `j` of `id`. */
  lemma TabledEntry(t: TableParts, id: TextureId, j: nat)
    requires Tabled(t) && id in t.lists && j < |t.lists[id]|
    ensures id in t.table && |t.lists[id]| == |t.table[id]|
    ensures t.lists[id][j] in t.repr && t.lists[id][j].vertexData in t.repr
    ensures t.lists[id][j].View() == t.table[id][j]
  {
    TabledHas(t, id);
  }

  /** A larger `repr` and an extended `where` keep the invariant. */
  lemma {:induction false} TabledGrow(t: TableParts, repr: set<object>, where: map<array<real>, Position>)
    requires Tabled(t)
    requires t.repr <= repr && forall a | a in t.where :: a in where && where[a] == t.where[a]
    ensures Tabled(t.(repr := repr, where := where))
    decreases |t.keys|
  {
    if t.keys != [] {
      TabledGrow(Rest(t), repr, where);
      assert Rest(t.(repr := repr, where := where)) == Rest(t).(repr := repr, where := where);
    }
  }

  /** The invariant depends on nothing outside `repr`. */
  twostate lemma TabledFrame(t: TableParts)
    requires old(Tabled(t)) && unchanged(t.repr)
    ensures Tabled(t)
  {
  }

  /** Changing one batch object and its array leaves a list that does not
      hold it as it was, also under a larger `repr` and an extended `where`. */
  twostate lemma SyncedKept(t: TableParts, new o: BatchDrawCall, new k: TextureId,
                            new repr: set<object>, new where: map<array<real>, Position>)
    requires k in t.lists && k in t.table && old(Synced(k, t.lists[k], t.table[k], t.repr, t.where))
    requires unchanged(t.repr - {o, o.vertexData})
    requires o.vertexData in t.where && t.where[o.vertexData].id != k
    requires t.repr <= repr && forall a | a in t.where :: a in where && where[a] == t.where[a]
    ensures Synced(k, t.lists[k], t.table[k], repr, where)
  {
    var ks := t.lists[k];
    forall i | 0 <= i < |ks| ensures ks[i].View() == t.table[k][i] {
      assert ks[i].vertexData != o.vertexData;
      assert old(ks[i].View()) == t.table[k][i];
    }
  }

  /** Changing one batch object and its array leaves every list that does not
      hold it as it was. */
  twostate lemma {:induction false} TabledUnaffected(t: TableParts, new o: BatchDrawCall)
    requires old(Tabled(t))
    requires unchanged(t.repr - {o, o.vertexData})
    requires o.vertexData in t.where && t.where[o.vertexData].id !in t.lists
    ensures Tabled(t)
    decreases |t.keys|
  {
    if t.keys != [] {
      SyncedKept(t, o, t.keys[|t.keys| - 1], t.repr, t.where);
      TabledUnaffected(Rest(t), o);
    }
  }

  /** Replacing the entry of `id`, after changing at most one batch object of
      its list and adding objects, keeps the invariant. */
  twostate lemma {:induction false} TabledReplace(t: TableParts, new o: BatchDrawCall, new id: TextureId,
                                                  new bs: seq<BatchDrawCall>, new vs: seq<Batch>,
                                                  new repr: set<object>, new where: map<array<real>, Position>)
    requires old(Tabled(t)) && id in t.lists
    requires unchanged(t.repr - {o, o.vertexData})
    requires o.vertexData in t.where && t.where[o.vertexData].id == id
    requires t.repr <= repr && forall a | a in t.where :: a in where && where[a] == t.where[a]
    requires Synced(id, bs, vs, repr, where)
    ensures Tabled(TableParts(t.lists[id := bs], t.keys, t.table[id := vs], repr, where))
    decreases |t.keys|
  {
    var k := t.keys[|t.keys| - 1];
    var r := Rest(t);
    RestReplace(t, id, bs, vs, repr, where);
    if k == id {
      TabledUnaffected(r, o);
      TabledGrow(r, repr, where);
    } else {
      SyncedKept(t, o, k, repr, where);
      TabledReplace(r, o, id, bs, vs, repr, where);
    }
  }

  /** Replacing the entry of `id` by lists that mirror each other keeps the
      invariant. */
  lemma {:induction false} TabledSet(t: TableParts, id: TextureId, bs: seq<BatchDrawCall>, vs: seq<Batch>)
    requires Tabled(t) && id in t.lists
    requires Synced(id, bs, vs, t.repr, t.where)
    ensures Tabled(TableParts(t.lists[id := bs], t.keys, t.table[id := vs], t.repr, t.where))
    decreases |t.keys|
  {
    RestReplace(t, id, bs, vs, t.repr, t.where);
    if t.keys[|t.keys| - 1] != id {
      TabledSet(Rest(t), id, bs, vs);
    }
  }

  /** A list of one empty batch mirrors its value. */
  lemma SyncedOpened(id: TextureId, b: BatchDrawCall, p: Pipeline, repr: set<object>, where: map<array<real>, Position>)
    requires b in repr && b.vertexData in repr
    requires b.vertexData in where && where[b.vertexData] == Position(id, 0)
    requires b.View() == EmptyBatch(p)
    ensures Synced(id, [b], [EmptyBatch(p)], repr, where)
  {
  }

  /** Opening a new id with one fresh, empty batch keeps the invariant. */
  lemma TabledOpen(t: TableParts, id: TextureId, b: BatchDrawCall, p: Pipeline)
    requires Tabled(t)
    requires id !in t.lists && b.vertexData !in t.where && b.View() == EmptyBatch(p)
    ensures Tabled(TableParts(t.lists[id := [b]], t.keys + [id], t.table[id := [EmptyBatch(p)]],
                              t.repr + {b, b.vertexData}, t.where[b.vertexData := Position(id, 0)]))
  {
    TabledSameIds(t);
    var repr, where := t.repr + {b, b.vertexData}, t.where[b.vertexData := Position(id, 0)];
    TabledGrow(t, repr, where);
    RestAdd(t, id, [b], [EmptyBatch(p)], repr, where);
    SyncedOpened(id, b, p, repr, where);
  }

  /** Opening, stated across the allocation of the new batch. */
  twostate lemma TabledOpenFrom(t: TableParts, new id: TextureId, new b: BatchDrawCall, new p: Pipeline,
                                new u: TableParts)
    requires old(Tabled(t)) && unchanged(t.repr)
    requires id !in t.lists && fresh(b.vertexData) && b.View() == EmptyBatch(p)
    requires u == TableParts(t.lists[id := [b]], t.keys + [id], t.table[id := [EmptyBatch(p)]],
                             t.repr + {b, b.vertexData}, t.where[b.vertexData := Position(id, 0)])
    ensures Tabled(u)
  {
    TabledFrame(t);
    TabledOpen(t, id, b, p);
  }

  /** After one quad is written into the last batch of `id`, the list of `id`
      mirrors its values with that quad filled in. */
  twostate lemma SyncedFill(t: TableParts, new id: TextureId, new quad: seq<real>)
    requires id in t.lists && id in t.table && old(Synced(id, t.lists[id], t.table[id], t.repr, t.where))
    requires |t.lists[id]| > 0 && |quad| == FLOATS_PER_SPRITE
    requires var last := t.lists[id][|t.lists[id]| - 1];
      && unchanged(t.repr - {last, last.vertexData})
      && old(last.instanceCount) < MAX_SPRITES && last.vertexData.Length == BATCH_FLOATS
      && last.View() == Fill(old(last.View()), quad)
    ensures Synced(id, t.lists[id], Filled(t.table[id], quad), t.repr, t.where)
  {
    var bs := t.lists[id];
    var n := |bs|;
    var last := bs[n - 1];
    var vs := t.table[id];
    assert old(last.View()) == vs[n - 1];
    var vs' := Filled(vs, quad);
    forall i | 0 <= i < n - 1 ensures bs[i].View() == vs'[i] {
      assert bs[i].vertexData != last.vertexData;
      assert old(bs[i].View()) == vs[i];
    }
  }

  /** Writing one quad into the last batch of `id` is filling in the last value
      of its list. */
  twostate lemma TabledFill(t: TableParts, new id: TextureId, new quad: seq<real>)
    requires old(Tabled(t))
    requires id in t.lists && id in t.table && old(Synced(id, t.lists[id], t.table[id], t.repr, t.where))
    requires |t.lists[id]| > 0 && |quad| == FLOATS_PER_SPRITE
    requires var last := t.lists[id][|t.lists[id]| - 1];
      && unchanged(t.repr - {last, last.vertexData})
      && old(last.instanceCount) < MAX_SPRITES && last.vertexData.Length == BATCH_FLOATS
      && last.View() == Fill(old(last.View()), quad)
    ensures Tabled(t.(table := t.table[id := Filled(t.table[id], quad)]))
  {
    var bs := t.lists[id];
    var last := bs[|bs| - 1];
    SyncedFill(t, id, quad);
    TabledReplace(t, last, id, bs, Filled(t.table[id], quad), t.repr, t.where);
    UpdateSame(t.lists, id);
  }

  /** Putting a fresh, empty batch after the list of `id` keeps the invariant. */
  lemma TabledSeal(t: TableParts, id: TextureId, b: BatchDrawCall, p: Pipeline)
    requires Tabled(t) && id in t.lists
    requires b.vertexData !in t.where && b.View() == EmptyBatch(p)
    ensures id in t.table
    ensures Tabled(TableParts(t.lists[id := t.lists[id] + [b]], t.keys, t.table[id := t.table[id] + [EmptyBatch(p)]],
                              t.repr + {b, b.vertexData}, t.where[b.vertexData := Position(id, |t.lists[id]|)]))
  {
    TabledHas(t, id);
    var bs, vs := t.lists[id], t.table[id];
    var repr, where := t.repr + {b, b.vertexData}, t.where[b.vertexData := Position(id, |bs|)];
    TabledGrow(t, repr, where);
    var g := t.(repr := repr, where := where);
    var bs', vs' := bs + [b], vs + [EmptyBatch(p)];
    forall i | 0 <= i < |bs'|
      ensures bs'[i].vertexData in where && where[bs'[i].vertexData] == Position(id, i)
    {
      if i < |bs| {
        assert bs'[i] == bs[i];
      }
    }
    assert Synced(id, bs', vs', repr, where);
    TabledSet(g, id, bs', vs');
  }

  /** Sealing, stated across the allocation of the new batch. */
  twostate lemma TabledSealFrom(t: TableParts, new id: TextureId, new b: BatchDrawCall, new p: Pipeline,
                                new u: TableParts)
    requires old(Tabled(t)) && unchanged(t.repr)
    requires id in t.lists && id in t.table && b.vertexData !in t.where && b.View() == EmptyBatch(p)
    requires u == TableParts(t.lists[id := t.lists[id] + [b]], t.keys, t.table[id := t.table[id] + [EmptyBatch(p)]],
                             t.repr + {b, b.vertexData}, t.where[b.vertexData := Position(id, |t.lists[id]|)])
    ensures Tabled(u)
  {
    TabledFrame(t);
    TabledSeal(t, id, b, p);
  }
}
