/** The object detections the dashboard receives from the detector: the
    per-label tally it prints, and the fruit filter behind the boxes it draws
    and the fruit count it uploads with a snapshot. */
module Detections {
  import opened Common
  import opened Batches

  /** One detection: its class label (the `label` field) and its box [x1, y1, x2, y2]. */
  datatype Detection = Detection(objectLabel: string, box: seq<real>)

  /** The labels that count as fruit. */
  const AllowedFruits: seq<string> := ["apple", "orange", "fruit", "tomato", "grape"]

  predicate IsFruit(d: Detection)
  {
    d.objectLabel in AllowedFruits
  }

  /** `a` is `b` with some elements left out, the rest in their order. */
  predicate IsSubsequence<T(==)>(a: seq<T>, b: seq<T>)
    decreases |b|
  {
    a == [] || (b != [] && ((a[0] == b[0] && IsSubsequence(a[1..], b[1..])) || IsSubsequence(a, b[1..])))
  }

  /** `detections.filter(d => allowedFruits.includes(d.label))`: the fruit
      detections, in order, each as often as it was detected. */
  function FruitDetections(detections: seq<Detection>): (fruit: seq<Detection>)
    ensures forall i :: 0 <= i < |fruit| ==> IsFruit(fruit[i])
    ensures forall d :: multiset(fruit)[d] == if IsFruit(d) then multiset(detections)[d] else 0
    ensures IsSubsequence(fruit, detections)
  {
    if detections == [] then []
    else
      var rest := FruitDetections(detections[1..]);
      assert detections == [detections[0]] + detections[1..];
      if IsFruit(detections[0]) then [detections[0]] + rest else rest
  }

  /** Every detection of `detections` is a fruit. */
  predicate AllFruit(detections: seq<Detection>)
  {
    forall i :: 0 <= i < |detections| ==> IsFruit(detections[i])
  }

  /** All of a non-empty sequence are fruit when its first is and all of the rest are. */
  lemma AllFruitCons(detections: seq<Detection>)
    requires detections != []
    ensures AllFruit(detections) <==> IsFruit(detections[0]) && AllFruit(detections[1..])
  {
    if IsFruit(detections[0]) && AllFruit(detections[1..]) {
      forall i | 1 <= i < |detections|
        ensures IsFruit(detections[i])
      {
        assert detections[i] == detections[1..][i - 1];
      }
    }
  }

  /** The fruit count is at most the number of detections, and all of them only when every
      detection is a fruit. */
  lemma {:induction false} FruitCountBound(detections: seq<Detection>)
    ensures |FruitDetections(detections)| <= |detections|
    ensures |FruitDetections(detections)| == |detections| <==> AllFruit(detections)
  {
    if detections != [] {
      FruitCountBound(detections[1..]);
      AllFruitCons(detections);
    }
  }

  /** The label of every detection, in order. */
  function Labels(detections: seq<Detection>): (labels: seq<string>)
    ensures |labels| == |detections|
    ensures forall i :: 0 <= i < |detections| ==> labels[i] == detections[i].objectLabel
  {
    seq(|detections|, i requires 0 <= i < |detections| => detections[i].objectLabel)
  }

  /** The total of the counts of `keys`. */
  function Total(keys: seq<string>, counts: map<string, nat>): nat
  {
    if keys == [] then 0 else (if keys[0] in counts then counts[keys[0]] else 0) + Total(keys[1..], counts)
  }

  /** `counts` holds exactly the labels of `labels`, each with its number of occurrences. */
  ghost predicate IsTally(labels: seq<string>, counts: map<string, nat>)
  {
    (forall l :: l in counts <==> l in labels) &&
    (forall l :: l in counts ==> counts[l] == multiset(labels)[l])
  }

  /** One step of the `reduce`: `acc[label] = (acc[label] || 0) + 1`. */
  function Bump(counts: map<string, nat>, l: string): map<string, nat>
  {
    counts[l := (if l in counts then counts[l] else 0) + 1]
  }

  /** A step keeps the tally a tally of the labels seen so far. */
  lemma TallyStep(labels: seq<string>, counts: map<string, nat>, l: string)
    requires IsTally(labels, counts)
    ensures IsTally(labels + [l], Bump(counts, l))
  {
    assert multiset(labels + [l]) == multiset(labels) + multiset{l};
  }

  /** A step adds one to the total over the distinct labels seen so far. */
  lemma TotalStep(labels: seq<string>, counts: map<string, nat>, l: string)
    requires IsTally(labels, counts)
    ensures Total(FirstWriteOrder(labels + [l]), Bump(counts, l)) == Total(FirstWriteOrder(labels), counts) + 1
  {
    var order := FirstWriteOrder(labels);
    FirstWriteOrderAppend(labels, l);
    FirstWriteOrderMembers(labels);
    if l in counts {
      TotalBump(order, counts, l);
    } else {
      TotalAppend(order, counts, l);
    }
  }

  /** The tally that `updateDetectionInfo` builds with `reduce`: the labels in the order
      they first appear (the order the entries are printed in), and for each label the
      number of detections with it. The counts add up to the number of detections. */
  method CountLabels(detections: seq<Detection>) returns (order: seq<string>, counts: map<string, nat>)
    ensures order == FirstWriteOrder(Labels(detections)) && NoDuplicates(order)
    ensures forall l :: l in counts <==> l in Labels(detections)
    ensures forall l :: l in counts ==> counts[l] == multiset(Labels(detections))[l]
    ensures Total(order, counts) == |detections|
  {
    ghost var labels := Labels(detections);
    order, counts := [], map[];
    var i := 0;
    while i < |detections|
      invariant 0 <= i <= |detections|
      invariant order == FirstWriteOrder(labels[..i])
      invariant IsTally(labels[..i], counts)
      invariant Total(order, counts) == i
    {
      var l := detections[i].objectLabel;
      assert labels[..i + 1] == labels[..i] + [l];
      TallyStep(labels[..i], counts, l);
      TotalStep(labels[..i], counts, l);
      FirstWriteOrderAppend(labels[..i], l);
      var count := if l in counts then counts[l] else 0;
      counts := counts[l := count + 1];
      order := AddBatch(order, l);
      i := i + 1;
    }
    assert labels[..i] == labels;
    FirstWriteOrderMembers(labels);
  }

  /** Changing the count of a key not listed leaves the total as it was. */
  lemma {:induction false} TotalIgnores(keys: seq<string>, counts: map<string, nat>, l: string, n: nat)
    requires l !in keys
    ensures Total(keys, counts[l := n]) == Total(keys, counts)
  {
    if keys != [] {
      TotalIgnores(keys[1..], counts, l, n);
    }
  }

  /** Listing a new key with count one adds one to the total. */
  lemma {:induction false} TotalAppend(keys: seq<string>, counts: map<string, nat>, l: string)
    requires l !in keys
    ensures Total(keys + [l], counts[l := 1]) == Total(keys, counts) + 1
  {
    if keys == [] {
      assert [l][1..] == [];
    } else {
      assert (keys + [l])[1..] == keys[1..] + [l];
      TotalAppend(keys[1..], counts, l);
    }
  }

  /** Adding one to the count of a key listed once adds one to the total. */
  lemma {:induction false} TotalBump(keys: seq<string>, counts: map<string, nat>, l: string)
    requires NoDuplicates(keys) && l in keys && l in counts
    ensures Total(keys, counts[l := counts[l] + 1]) == Total(keys, counts) + 1
  {
    if keys[0] == l {
      assert l !in keys[1..];
      TotalIgnores(keys[1..], counts, l, counts[l] + 1);
    } else {
      TotalBump(keys[1..], counts, l);
    }
  }
}
