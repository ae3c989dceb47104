/** Drawing batches from a data set epoch by epoch, with reshuffling and with batches that straddle epochs.

    A shuffle of `arange(n)` is any rearrangement of 0..n; which one is a parameter of the call. */
module EpochBatches {
  import opened Common

  datatype Data<I, L> = Data(images: seq<I>, labels: seq<L>, epochs: nat, index: int)

  /** One call: `perm0` is the shuffle drawn before the first epoch, `perm` the one between epochs. */
  datatype Request = Request(size: nat, shuffle: bool, perm0: seq<nat>, perm: seq<nat>)

  function Range(n: nat): seq<nat> {
    seq(n, i => i)
  }

  ghost predicate IsShuffle(perm: seq<nat>, n: nat) {
    multiset(perm) == multiset(Range(n))
  }

  lemma ShuffleIndexes(perm: seq<nat>, n: nat)
    requires IsShuffle(perm, n)
    ensures |perm| == n && forall i :: 0 <= i < n ==> perm[i] < n
  {
    assert |multiset(perm)| == |perm| && |multiset(Range(n))| == n;
    forall i | 0 <= i < |perm| ensures perm[i] < n {
      assert perm[i] in multiset(perm);
      assert perm[i] in Range(n);
    }
  }

  /** numpy indexing by an index array; an index out of range has no row. */
  function Permute<T>(s: seq<T>, perm: seq<nat>): seq<T>
    requires forall i :: 0 <= i < |perm| ==> perm[i] < |s|
  {
    seq(|perm|, i requires 0 <= i < |perm| => s[perm[i]])
  }

  /** Python slicing with non-negative bounds: out-of-range bounds are clipped. */
  function Slice<T>(s: seq<T>, lo: nat, hi: int): seq<T> {
    if lo >= |s| || hi <= lo then [] else s[lo..if hi < |s| then hi else |s|]
  }

  function Zip<I, L>(a: seq<I>, b: seq<L>): seq<(I, L)>
    requires |a| == |b|
  {
    seq(|a|, i requires 0 <= i < |a| => (a[i], b[i]))
  }

  ghost predicate Fits<I, L>(d: Data<I, L>, r: Request) {
    && |d.labels| == |d.images| && d.index >= 0
    && IsShuffle(r.perm0, |d.images|) && IsShuffle(r.perm, |d.images|)
  }

  ghost function Reordered<I, L>(d: Data<I, L>, perm: seq<nat>): Data<I, L>
    requires |d.labels| == |d.images| && IsShuffle(perm, |d.images|)
  {
    ShuffleIndexes(perm, |d.images|);
    d.(images := Permute(d.images, perm), labels := Permute(d.labels, perm))
  }

  /** The data set as a call draws from it: shuffled first, if this is the very beginning. */
  ghost function Opened<I, L>(d: Data<I, L>, r: Request): Data<I, L>
    requires Fits(d, r)
  {
    if d.epochs == 0 && d.index == 0 && r.shuffle then Reordered(d, r.perm0) else d
  }

  predicate Wraps<I, L>(d: Data<I, L>, r: Request) {
    d.index + r.size > |d.images|
  }

  ghost function Next<I, L>(d: Data<I, L>, r: Request): Data<I, L>
    requires Fits(d, r)
  {
    var o := Opened(d, r);
    if !Wraps(d, r) then o.(index := d.index + r.size)
    else
      var turned := if r.shuffle then Reordered(o, r.perm) else o;
      turned.(epochs := d.epochs + 1, index := r.size - (|d.images| - d.index))
  }

  ghost function Batch<I, L>(d: Data<I, L>, r: Request): (seq<I>, seq<L>)
    requires Fits(d, r)
  {
    var o, d' := Opened(d, r), Next(d, r);
    if !Wraps(d, r) then (Slice(o.images, d.index, d'.index), Slice(o.labels, d.index, d'.index))
    else (Slice(o.images, d.index, |d.images|) + Slice(d'.images, 0, d'.index),
          Slice(o.labels, d.index, |d.images|) + Slice(d'.labels, 0, d'.index))
  }

  // ---- The data set object ----

  /** The indexes of `p` stay inside `s`. */
  predicate Within(p: seq<nat>, len: nat) {
    forall i :: 0 <= i < |p| ==> p[i] < len
  }

  class DataSet<I, L> {
    var images: seq<I>
    var labels: seq<L>
    var epochsCompleted: nat
    var indexInEpoch: int
    const numExamples: nat

    ghost function State(): Data<I, L>
      reads this
    {
      Data(images, labels, epochsCompleted, indexInEpoch)
    }

    ghost predicate Valid()
      reads this
    {
      |images| == |labels| == numExamples && indexInEpoch >= 0
    }

    constructor (images: seq<I>, labels: seq<L>)
      requires |images| == |labels|
      ensures Valid() && State() == Data(images, labels, 0, 0)
    {
      this.images, this.labels, this.numExamples := images, labels, |images|;
      epochsCompleted, indexInEpoch := 0, 0;
    }

    method NextBatch(batchSize: nat, shuffle: bool, perm0: seq<nat>, perm: seq<nat>)
      returns (batchImages: seq<I>, batchLabels: seq<L>)
      requires Valid() && IsShuffle(perm0, numExamples) && IsShuffle(perm, numExamples)
      modifies this
      ensures Valid()
      ensures State() == Next(old(State()), Request(batchSize, shuffle, perm0, perm))
      ensures (batchImages, batchLabels) == Batch(old(State()), Request(batchSize, shuffle, perm0, perm))
      ensures var first, wraps := old(epochsCompleted) == old(indexInEpoch) == 0,
                                  old(indexInEpoch) + batchSize > numExamples;
              && (!shuffle || (!first && !wraps) ==> images == old(images) && labels == old(labels))
              && |perm0| == |perm| == numExamples && Within(perm0, numExamples) && Within(perm, numExamples)
              && (shuffle && first && !wraps ==> forall i :: 0 <= i < numExamples ==>
                    images[i] == old(images)[perm0[i]] && labels[i] == old(labels)[perm0[i]])
              && (shuffle && !first && wraps ==> forall i :: 0 <= i < numExamples ==>
                    images[i] == old(images)[perm[i]] && labels[i] == old(labels)[perm[i]])
              && (shuffle && first && wraps ==> forall i :: 0 <= i < numExamples ==>
                    images[i] == old(images)[perm0[perm[i]]] && labels[i] == old(labels)[perm0[perm[i]]])
    {
      ShuffleIndexes(perm0, numExamples);
      ShuffleIndexes(perm, numExamples);
      var start := indexInEpoch;
      if epochsCompleted == 0 && start == 0 && shuffle {
        images := Permute(images, perm0);
        labels := Permute(labels, perm0);
      }
      if start + batchSize > numExamples {
        epochsCompleted := epochsCompleted + 1;
        var rest := numExamples - start;
        var imagesRest := Slice(images, start, numExamples);
        var labelsRest := Slice(labels, start, numExamples);
        if shuffle {
          images := Permute(images, perm);
          labels := Permute(labels, perm);
        }
        start := 0;
        indexInEpoch := batchSize - rest;
        batchImages := imagesRest + Slice(images, start, indexInEpoch);
        batchLabels := labelsRest + Slice(labels, start, indexInEpoch);
      } else {
        indexInEpoch := indexInEpoch + batchSize;
        batchImages := Slice(images, start, indexInEpoch);
        batchLabels := Slice(labels, start, indexInEpoch);
      }
    }
  }

  // ---- Shuffling rearranges rows and keeps every image with its label ----

  lemma PermuteWithout<T>(s: seq<T>, p: seq<nat>, j: nat)
    requires Within(p, |s|) && j < |p|
    ensures Within(Without(p, j), |s|)
    ensures multiset(Permute(s, p)) == multiset(Permute(s, Without(p, j))) + multiset{s[p[j]]}
  {
    assert Permute(s, p) == Permute(s, p[..j]) + [s[p[j]]] + Permute(s, p[j + 1..]);
    assert Permute(s, Without(p, j)) == Permute(s, p[..j]) + Permute(s, p[j + 1..]);
  }

  lemma {:induction false} PermuteMultiset<T>(s: seq<T>, p: seq<nat>, q: seq<nat>)
    requires multiset(p) == multiset(q) && Within(p, |s|) && Within(q, |s|)
    ensures multiset(Permute(s, p)) == multiset(Permute(s, q))
    decreases |p|
  {
    assert |multiset(p)| == |multiset(q)|;
    if p != [] {
      assert p[0] in multiset(q);
      var j :| 0 <= j < |q| && q[j] == p[0];
      WithoutMultiset(p, 0);
      WithoutMultiset(q, j);
      PermuteWithout(s, p, 0);
      PermuteWithout(s, q, j);
      PermuteMultiset(s, Without(p, 0), Without(q, j));
    }
  }

  function Rows<I, L>(d: Data<I, L>): seq<(I, L)>
    requires |d.images| == |d.labels|
  {
    Zip(d.images, d.labels)
  }

  lemma ReorderedRows<I, L>(d: Data<I, L>, perm: seq<nat>)
    requires |d.labels| == |d.images| && IsShuffle(perm, |d.images|)
    ensures var d' := Reordered(d, perm);
            |d'.images| == |d'.labels| == |d.images| && multiset(Rows(d')) == multiset(Rows(d))
  {
    var n := |d.images|;
    ShuffleIndexes(perm, n);
    PermuteMultiset(Rows(d), perm, Range(n));
    assert Rows(Reordered(d, perm)) == Permute(Rows(d), perm);
    assert Permute(Rows(d), Range(n)) == Rows(d);
  }
}
