/** The consistency conditions of a ledger's storage, stated over plain maps and
    sequences, and the facts that each kind of transaction keeps them. */
module LedgerState {
  import opened Common
  import opened Batches

  /** Product ids are non-empty, and the id list names each catalogued product exactly once. */
  ghost predicate Catalogue<V>(products: map<string, V>, productIds: seq<string>)
  {
    && (forall p :: p in products ==> p != "")
    && NoDuplicates(productIds)
    && (forall p :: p in productIds <==> p in products)
  }

  /** Adding a new, non-empty id at the end of the list keeps the catalogue consistent. */
  lemma AddKeepsCatalogue<V>(products: map<string, V>, productIds: seq<string>, productId: string, entry: V)
    requires Catalogue(products, productIds)
    requires productId != "" && productId !in products
    ensures Catalogue(products[productId := entry], productIds + [productId])
  {
    var ids' := productIds + [productId];
    assert productId !in productIds;
    forall i, j | 0 <= i < j < |ids'|
      ensures ids'[i] != ids'[j]
    {
      if j == |productIds| {
        assert ids'[i] == productIds[i];
      } else {
        assert ids'[i] == productIds[i] && ids'[j] == productIds[j];
      }
    }
    forall p
      ensures p in ids' <==> p in products[productId := entry]
    {
      assert p in ids' <==> p in productIds || p == productId;
    }
  }

  /** Changing the entry of a catalogued product keeps the catalogue consistent. */
  lemma ChangeKeepsCatalogue<V>(products: map<string, V>, productIds: seq<string>, productId: string, entry: V)
    requires Catalogue(products, productIds) && productId in products
    ensures Catalogue(products[productId := entry], productIds)
    ensures products[productId := entry].Keys == products.Keys
  {
  }

  /** The batch index agrees with the write log: the products with batches are catalogued,
      each one's list is the first-write order of its writes, and a record exists exactly
      for each listed batch. */
  ghost predicate BatchIndex<R>(productKeys: set<string>, batchIds: map<string, seq<string>>,
                                batchWrites: map<string, seq<string>>, batchData: map<(string, string), R>)
  {
    && batchIds.Keys == batchWrites.Keys
    && batchIds.Keys <= productKeys
    && ListsFollowWrites(batchIds, batchWrites)
    && RecordsFollowLists(batchIds, batchData)
  }

  /** Each product's list is the first-write order of its batch writes, none with an empty id. */
  ghost predicate ListsFollowWrites(batchIds: map<string, seq<string>>, batchWrites: map<string, seq<string>>)
  {
    forall p :: p in batchIds && p in batchWrites ==> batchIds[p] == FirstWriteOrder(batchWrites[p]) && "" !in batchWrites[p]
  }

  /** A batch has a record exactly when it is listed. */
  ghost predicate RecordsFollowLists<R>(batchIds: map<string, seq<string>>, batchData: map<(string, string), R>)
  {
    forall p, b :: (p, b) in batchData <==> p in batchIds && b in batchIds[p]
  }

  /** Cataloguing more products keeps the index consistent. */
  lemma MoreProductsKeepBatchIndex<R>(productKeys: set<string>, more: set<string>, batchIds: map<string, seq<string>>,
                                      batchWrites: map<string, seq<string>>, batchData: map<(string, string), R>)
    requires BatchIndex(productKeys, batchIds, batchWrites, batchData) && productKeys <= more
    ensures BatchIndex(more, batchIds, batchWrites, batchData)
  {
  }

  /** One more write of a non-empty batch id of a catalogued product keeps the index
      consistent, the product's list growing by `AddBatch`. */
  lemma WriteKeepsBatchIndex<R>(productKeys: set<string>, batchIds: map<string, seq<string>>,
                                batchWrites: map<string, seq<string>>, batchData: map<(string, string), R>,
                                productId: string, batchId: string, record: R,
                                list: seq<string>, writes: seq<string>)
    requires BatchIndex(productKeys, batchIds, batchWrites, batchData)
    requires productId in productKeys && batchId != ""
    requires list == if productId in batchIds then batchIds[productId] else []
    requires writes == if productId in batchWrites then batchWrites[productId] else []
    ensures BatchIndex(productKeys, batchIds[productId := AddBatch(list, batchId)],
                       batchWrites[productId := writes + [batchId]], batchData[(productId, batchId) := record])
  {
    assert batchIds[productId := AddBatch(list, batchId)].Keys == batchIds.Keys + {productId};
    assert batchWrites[productId := writes + [batchId]].Keys == batchWrites.Keys + {productId};
    WriteKeepsLists(batchIds, batchWrites, productId, batchId, list, writes);
    WriteKeepsRecords(batchIds, batchData, productId, batchId, record, list);
  }

  lemma WriteKeepsLists(batchIds: map<string, seq<string>>, batchWrites: map<string, seq<string>>,
                        productId: string, batchId: string, list: seq<string>, writes: seq<string>)
    requires ListsFollowWrites(batchIds, batchWrites) && batchIds.Keys == batchWrites.Keys && batchId != ""
    requires list == if productId in batchIds then batchIds[productId] else []
    requires writes == if productId in batchWrites then batchWrites[productId] else []
    ensures ListsFollowWrites(batchIds[productId := AddBatch(list, batchId)], batchWrites[productId := writes + [batchId]])
  {
    var ids' := batchIds[productId := AddBatch(list, batchId)];
    var writes' := batchWrites[productId := writes + [batchId]];
    assert list == FirstWriteOrder(writes) && "" !in writes;
    FirstWriteOrderAppend(writes, batchId);
    assert ids'[productId] == FirstWriteOrder(writes + [batchId]);
    forall p | p in ids' && p in writes' && p != productId
      ensures ids'[p] == FirstWriteOrder(writes'[p]) && "" !in writes'[p]
    {
      assert ids'[p] == batchIds[p] && writes'[p] == batchWrites[p];
    }
  }

  lemma WriteKeepsRecords<R>(batchIds: map<string, seq<string>>, batchData: map<(string, string), R>,
                             productId: string, batchId: string, record: R, list: seq<string>)
    requires RecordsFollowLists(batchIds, batchData)
    requires list == if productId in batchIds then batchIds[productId] else []
    ensures RecordsFollowLists(batchIds[productId := AddBatch(list, batchId)], batchData[(productId, batchId) := record])
  {
    var ids' := batchIds[productId := AddBatch(list, batchId)];
    var data' := batchData[(productId, batchId) := record];
    AddBatchMembers(list, batchId);
    forall p, b
      ensures (p, b) in data' <==> p in ids' && b in ids'[p]
    {
      if p != productId {
        assert (p, b) in data' <==> (p, b) in batchData;
      }
    }
  }
}
