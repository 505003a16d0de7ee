/** The per-product batch list of a ledger: a batch id joins the list the first
    time either of its fields is written, and never joins it twice. */
module Batches {
  import opened Common

  /** The list after one write to batch `b`: unchanged if `b` is listed, else `b` appended. */
  function AddBatch(list: seq<string>, b: string): (r: seq<string>)
    ensures b in r
    ensures |r| == if b in list then |list| else |list| + 1
  {
    if b in list then list else list + [b]
  }

  /** Exactly the listed batches and `b` are listed after the write. */
  lemma AddBatchMembers(list: seq<string>, b: string)
    ensures forall x :: x in AddBatch(list, b) <==> x in list || x == b
  {
  }

  /** The write keeps the list's order and its entries distinct. */
  lemma AddBatchExtends(list: seq<string>, b: string)
    ensures AddBatch(list, b)[..|list|] == list
    ensures NoDuplicates(list) ==> NoDuplicates(AddBatch(list, b))
  {
  }

  /** The batch list produced by a whole history of writes, oldest first: the
      distinct batch ids of `writes`, each where it was first written. */
  function FirstWriteOrder(writes: seq<string>): seq<string>
  {
    if writes == [] then [] else AddBatch(FirstWriteOrder(writes[..|writes| - 1]), writes[|writes| - 1])
  }

  /** One more write extends the history's list by `AddBatch`: the step a ledger takes. */
  lemma {:induction false} FirstWriteOrderAppend(writes: seq<string>, b: string)
    ensures FirstWriteOrder(writes + [b]) == AddBatch(FirstWriteOrder(writes), b)
  {
    assert (writes + [b])[..|writes + [b]| - 1] == writes;
  }

  /** The list lists exactly the batches ever written, each once. */
  lemma {:induction false} FirstWriteOrderMembers(writes: seq<string>)
    ensures NoDuplicates(FirstWriteOrder(writes))
    ensures forall x :: x in FirstWriteOrder(writes) <==> x in writes
    ensures |FirstWriteOrder(writes)| <= |writes|
  {
    if writes != [] {
      var init := writes[..|writes| - 1];
      FirstWriteOrderMembers(init);
      AddBatchExtends(FirstWriteOrder(init), writes[|writes| - 1]);
      InitAndLast(writes);
    }
  }

  /** Writing batches that are all distinct lists them exactly as written. */
  lemma {:induction false} DistinctWritesListedVerbatim(writes: seq<string>)
    requires NoDuplicates(writes)
    ensures FirstWriteOrder(writes) == writes
  {
    if writes != [] {
      var init := writes[..|writes| - 1];
      var last := writes[|writes| - 1];
      DistinctPrefix(writes);
      DistinctWritesListedVerbatim(init);
      assert FirstWriteOrder(writes) == AddBatch(init, last) == init + [last];
      InitAndLast(writes);
    }
  }

  /** A non-empty history is its earlier writes followed by its last one. */
  lemma InitAndLast(writes: seq<string>)
    requires writes != []
    ensures writes == writes[..|writes| - 1] + [writes[|writes| - 1]]
  {
  }

  /** Dropping the last of distinct writes leaves distinct writes, none equal to the dropped one. */
  lemma DistinctPrefix(writes: seq<string>)
    requires writes != [] && NoDuplicates(writes)
    ensures NoDuplicates(writes[..|writes| - 1])
    ensures writes[|writes| - 1] !in writes[..|writes| - 1]
  {
  }

  /** Writing a batch that is already listed leaves the list as it was. */
  lemma {:induction false} RewriteKeepsList(writes: seq<string>, b: string)
    requires b in writes
    ensures FirstWriteOrder(writes + [b]) == FirstWriteOrder(writes)
  {
    FirstWriteOrderMembers(writes);
    assert (writes + [b])[..|writes + [b]| - 1] == writes;
  }

  /** The first position at which `x` was written. */
  function FirstIndex(writes: seq<string>, x: string): (k: nat)
    requires x in writes
    ensures k < |writes| && writes[k] == x
    ensures forall j :: 0 <= j < k ==> writes[j] != x
  {
    if writes[0] == x then 0 else 1 + FirstIndex(writes[1..], x)
  }

  /** Of two listed batches, the earlier in the list is the one written first. */
  lemma {:induction false} ListOrderIsFirstWriteOrder(writes: seq<string>, i: nat, j: nat)
    requires i < j < |FirstWriteOrder(writes)|
    ensures FirstWriteOrder(writes)[i] in writes && FirstWriteOrder(writes)[j] in writes
    ensures FirstIndex(writes, FirstWriteOrder(writes)[i]) < FirstIndex(writes, FirstWriteOrder(writes)[j])
  {
    var init := writes[..|writes| - 1];
    var last := writes[|writes| - 1];
    var list := FirstWriteOrder(writes);
    var prev := FirstWriteOrder(init);
    FirstWriteOrderMembers(writes);
    FirstWriteOrderMembers(init);
    AddBatchExtends(prev, last);
    InitAndLast(writes);
    assert list[i] in writes && list[j] in writes;
    if j < |prev| {
      ListOrderIsFirstWriteOrder(init, i, j);
      FirstIndexOfPrefix(init, last, list[i]);
      FirstIndexOfPrefix(init, last, list[j]);
    } else {
      // list[j] is `last`, appended because it had not been written before
      assert list == prev + [last] && list[j] == last && last !in init;
      assert list[i] == prev[i] && prev[i] in init;
      FirstIndexOfPrefix(init, last, list[i]);
      assert FirstIndex(writes, last) == |init|;
    }
  }

  /** Appending a write does not move the first position of a batch written before. */
  lemma {:induction false} FirstIndexOfPrefix(writes: seq<string>, b: string, x: string)
    requires x in writes
    ensures x in writes + [b] && FirstIndex(writes + [b], x) == FirstIndex(writes, x)
  {
    if writes[0] != x {
      assert (writes + [b])[1..] == writes[1..] + [b];
      FirstIndexOfPrefix(writes[1..], b, x);
    }
  }
}
