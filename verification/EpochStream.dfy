/** The stream of rows that a sequence of calls draws: exact epochs, and fairness. */
module EpochStream {
  import opened Common
  import opened EpochBatches

  /** What one call hands out, image by image with its label. */
  ghost function Drawn<I, L>(d: Data<I, L>, r: Request): seq<(I, L)>
    requires Fits(d, r) && |Batch(d, r).0| == |Batch(d, r).1|
  {
    Zip(Batch(d, r).0, Batch(d, r).1)
  }

  ghost predicate Sound<I, L>(d: Data<I, L>) {
    |d.images| == |d.labels| && 0 <= d.index <= |d.images|
  }

  /** The call does not ask for more than the rest of this epoch and one whole further one. */
  predicate Modest<I, L>(d: Data<I, L>, r: Request) {
    d.index + r.size <= 2 * |d.images|
  }

  /** A call on a sound data set returns a full batch and leaves it sound exactly when it is modest. */
  lemma FullBatchIff<I, L>(d: Data<I, L>, r: Request)
    requires Sound(d) && Fits(d, r)
    ensures var d', b := Next(d, r), Batch(d, r);
            (|b.0| == r.size && |b.1| == r.size && Sound(d')) <==> Modest(d, r)
  {
    ShuffleIndexes(r.perm0, |d.images|);
    ShuffleIndexes(r.perm, |d.images|);
  }

  /** A data set of one row, asked for three, gives two. */
  lemma ShortBatch()
    ensures var d, r := Data([7], [1], 0, 0), Request(3, false, [0], [0]);
            Sound(d) && Fits(d, r) && |Batch(d, r).0| == 2 && !Sound(Next(d, r))
  {
    assert Range(1) == [0];
  }

  /** `s` is `e` blocks of `n` rows, each a rearrangement of the rows `all`. */
  ghost predicate Blocks<P>(s: seq<P>, e: nat, n: nat, all: multiset<P>)
    decreases e
  {
    if e == 0 then s == []
    else |s| >= n && multiset(s[..n]) == all && Blocks(s[n..], e - 1, n, all)
  }

  /** `full` is the whole epochs drawn so far; what follows it in the stream is `Current`. */
  ghost predicate Tracks<I, L>(full: seq<(I, L)>, d: Data<I, L>, n: nat, all: multiset<(I, L)>) {
    Sound(d) && |d.images| == n && multiset(Rows(d)) == all && Blocks(full, d.epochs, n, all)
  }

  /** The part of the current order that has been drawn. */
  function Current<I, L>(d: Data<I, L>): seq<(I, L)>
    requires Sound(d)
  {
    Rows(d)[..d.index]
  }

  lemma {:induction false} BlocksAppend<P>(s: seq<P>, e: nat, n: nat, all: multiset<P>, block: seq<P>)
    requires Blocks(s, e, n, all) && |block| == n && multiset(block) == all
    ensures Blocks(s + block, e + 1, n, all)
    decreases e
  {
    if e == 0 {
      assert s + block == block && block[..n] == block && block[n..] == [];
    } else {
      BlocksAppend(s[n..], e - 1, n, all, block);
      assert (s + block)[..n] == s[..n] && (s + block)[n..] == s[n..] + block;
    }
  }

  lemma OpenedTracks<I, L>(full: seq<(I, L)>, d: Data<I, L>, r: Request, n: nat, all: multiset<(I, L)>)
    requires Tracks(full, d, n, all) && Fits(d, r)
    ensures var o := Opened(d, r);
            Tracks(full, o, n, all) && Current(o) == Current(d) && o.index == d.index && o.epochs == d.epochs
  {
    if d.epochs == 0 && d.index == 0 && r.shuffle {
      ReorderedRows(d, r.perm0);
    }
  }

  lemma ZipSlice<I, L>(a: seq<I>, b: seq<L>, lo: nat, hi: nat)
    requires |a| == |b| && lo <= hi <= |a|
    ensures |Slice(a, lo, hi)| == |Slice(b, lo, hi)| == hi - lo
    ensures Zip(Slice(a, lo, hi), Slice(b, lo, hi)) == Zip(a, b)[lo..hi]
  {
  }

  lemma ZipAppend<I, L>(a: seq<I>, b: seq<L>, a': seq<I>, b': seq<L>)
    requires |a| == |b| && |a'| == |b'|
    ensures Zip(a + a', b + b') == Zip(a, b) + Zip(a', b')
  {
  }

  lemma OpenedRows<I, L>(d: Data<I, L>, r: Request)
    requires Sound(d) && Fits(d, r)
    ensures var o := Opened(d, r);
            && Sound(o) && |o.images| == |d.images| && o.index == d.index && o.epochs == d.epochs
            && Current(o) == Current(d)
  {
    ShuffleIndexes(r.perm0, |d.images|);
  }

  lemma StraightRows<I, L>(d: Data<I, L>, r: Request)
    requires Sound(d) && Fits(d, r) && !Wraps(d, r)
    ensures |Batch(d, r).0| == |Batch(d, r).1| == r.size
    ensures Sound(Next(d, r)) && Sound(Opened(d, r)) && Rows(Next(d, r)) == Rows(Opened(d, r))
    ensures Current(d) + Drawn(d, r) == Current(Next(d, r))
  {
    OpenedRows(d, r);
    var o, hi := Opened(d, r), d.index + r.size;
    ZipSlice(o.images, o.labels, d.index, hi);
    assert Rows(o)[..o.index] + Rows(o)[o.index..hi] == Rows(o)[..hi];
  }

  lemma StraightCall<I, L>(full: seq<(I, L)>, d: Data<I, L>, r: Request, n: nat, all: multiset<(I, L)>)
    requires Tracks(full, d, n, all) && Fits(d, r) && !Wraps(d, r)
    ensures |Batch(d, r).0| == |Batch(d, r).1| == r.size
    ensures Tracks(full, Next(d, r), n, all) && Current(d) + Drawn(d, r) == Current(Next(d, r))
  {
    OpenedTracks(full, d, r, n, all);
    StraightRows(d, r);
  }

  lemma WrappedBatch<I, L>(d: Data<I, L>, r: Request, o: Data<I, L>, d': Data<I, L>)
    requires Sound(d) && Fits(d, r) && Modest(d, r) && Wraps(d, r) && o == Opened(d, r) && d' == Next(d, r)
    requires Sound(o) && Sound(d') && |o.images| == |d'.images| == |d.images|
    ensures |Batch(d, r).0| == |Batch(d, r).1| == r.size
    ensures Drawn(d, r) == Rows(o)[d.index..|d.images|] + Current(d')
  {
    var n := |d.images|;
    ZipSlice(o.images, o.labels, d.index, n);
    ZipSlice(d'.images, d'.labels, 0, d'.index);
    ZipAppend(Slice(o.images, d.index, n), Slice(o.labels, d.index, n),
              Slice(d'.images, 0, d'.index), Slice(d'.labels, 0, d'.index));
  }

  lemma RejoinCut<P>(s: seq<P>, i: nat, more: seq<P>)
    requires i <= |s|
    ensures s[..i] + (s[i..|s|] + more) == s + more
  {
  }

  lemma WrappingRows<I, L>(d: Data<I, L>, r: Request)
    requires Sound(d) && Fits(d, r) && Modest(d, r) && Wraps(d, r)
    ensures |Batch(d, r).0| == |Batch(d, r).1| == r.size
    ensures Sound(Next(d, r)) && Sound(Opened(d, r))
    ensures Current(d) + Drawn(d, r) == Rows(Opened(d, r)) + Current(Next(d, r))
  {
    OpenedRows(d, r);
    ShuffleIndexes(r.perm, |d.images|);
    WrappedBatch(d, r, Opened(d, r), Next(d, r));
    RejoinCut(Rows(Opened(d, r)), d.index, Current(Next(d, r)));
  }

  lemma WrappingCall<I, L>(full: seq<(I, L)>, d: Data<I, L>, r: Request, n: nat, all: multiset<(I, L)>)
    requires Tracks(full, d, n, all) && Fits(d, r) && Modest(d, r) && Wraps(d, r)
    ensures |Batch(d, r).0| == |Batch(d, r).1| == r.size
    ensures var last := Rows(Opened(d, r));
            && Tracks(full + last, Next(d, r), n, all)
            && Current(d) + Drawn(d, r) == last + Current(Next(d, r))
  {
    OpenedTracks(full, d, r, n, all);
    var o := Opened(d, r);
    if r.shuffle { ReorderedRows(o, r.perm); }
    WrappingRows(d, r);
    BlocksAppend(full, d.epochs, n, all, Rows(o));
  }

  /** One modest call draws exactly what was asked for and keeps the stream on track. */
  lemma CallTracks<I, L>(full: seq<(I, L)>, d: Data<I, L>, r: Request, n: nat, all: multiset<(I, L)>)
    returns (full': seq<(I, L)>)
    requires Tracks(full, d, n, all) && Fits(d, r) && Modest(d, r)
    ensures |Batch(d, r).0| == |Batch(d, r).1| == r.size
    ensures Tracks(full', Next(d, r), n, all)
    ensures full + Current(d) + Drawn(d, r) == full' + Current(Next(d, r))
  {
    if Wraps(d, r) {
      WrappingCall(full, d, r, n, all);
      full' := full + Rows(Opened(d, r));
      Cat(full, Rows(Opened(d, r)), Current(Next(d, r)));
    } else {
      StraightCall(full, d, r, n, all);
      full' := full;
    }
    Cat(full, Current(d), Drawn(d, r));
  }

  // ---- Whole runs ----

  /** Every call of the run finds shuffles of the right length and is modest. */
  ghost predicate Fair<I, L>(d: Data<I, L>, run: seq<Request>)
    decreases |run|
  {
    run == [] || (Fits(d, run[0]) && Modest(d, run[0]) && Fair(Next(d, run[0]), run[1..]))
  }

  ghost function End<I, L>(d: Data<I, L>, run: seq<Request>): Data<I, L>
    requires Fair(d, run)
    decreases |run|
  {
    if run == [] then d else End(Next(d, run[0]), run[1..])
  }

  ghost function Stream<I, L>(d: Data<I, L>, run: seq<Request>): seq<(I, L)>
    requires Fair(d, run) && Sound(d)
    decreases |run|
  {
    if run == [] then [] else
      FullBatchIff(d, run[0]);
      Drawn(d, run[0]) + Stream(Next(d, run[0]), run[1..])
  }

  function Asked(run: seq<Request>): nat {
    if run == [] then 0 else run[0].size + Asked(run[1..])
  }

  lemma {:induction false} RunTracks<I, L>(full: seq<(I, L)>, d: Data<I, L>, run: seq<Request>, n: nat,
                                           all: multiset<(I, L)>)
    returns (full': seq<(I, L)>)
    requires Tracks(full, d, n, all) && Fair(d, run)
    ensures Tracks(full', End(d, run), n, all)
    ensures full + Current(d) + Stream(d, run) == full' + Current(End(d, run))
    ensures |Stream(d, run)| == Asked(run)
    decreases |run|
  {
    if run == [] {
      full' := full;
    } else {
      var d' := Next(d, run[0]);
      var mid := CallTracks(full, d, run[0], n, all);
      full' := RunTracks(mid, d', run[1..], n, all);
      Cat(full + Current(d), Drawn(d, run[0]), Stream(d', run[1..]));
    }
  }

  /** Batches no larger than the data set are always modest: what follows holds of every run of such calls. */
  lemma {:induction false} SmallIsFair<I, L>(d: Data<I, L>, run: seq<Request>)
    requires Sound(d)
    requires forall r :: r in run ==>
               r.size <= |d.images| && IsShuffle(r.perm0, |d.images|) && IsShuffle(r.perm, |d.images|)
    ensures Fair(d, run)
    decreases |run|
  {
    if run != [] {
      assert run[0] in run;
      FullBatchIff(d, run[0]);
      ShuffleIndexes(run[0].perm0, |d.images|);
      ShuffleIndexes(run[0].perm, |d.images|);
      assert |Next(d, run[0]).images| == |d.images|;
      SmallIsFair(Next(d, run[0]), run[1..]);
    }
  }

  lemma {:induction false} BlocksLength<P>(s: seq<P>, e: nat, n: nat, all: multiset<P>)
    requires Blocks(s, e, n, all)
    ensures |s| == e * n
    decreases e
  {
    if e > 0 { BlocksLength(s[n..], e - 1, n, all); }
  }

  lemma SliceShift<P>(s: seq<P>, n: nat, lo: nat, hi: nat)
    requires lo <= hi && hi + n <= |s|
    ensures s[n..][lo..hi] == s[lo + n..hi + n]
  {
  }

  lemma {:induction false} BlockAt<P>(s: seq<P>, e: nat, n: nat, all: multiset<P>, k: nat)
    requires Blocks(s, e, n, all) && k < e
    ensures 0 <= k * n <= (k + 1) * n <= |s| && multiset(s[k * n..(k + 1) * n]) == all
    decreases e
  {
    BlocksLength(s, e, n, all);
    if k == 0 {
      assert s[0 * n..1 * n] == s[..n];
    } else {
      BlockAt(s[n..], e - 1, n, all, k - 1);
      var lo := (k - 1) * n;
      assert k * n == lo + n && (k + 1) * n == lo + n + n;
      SliceShift(s, n, lo, lo + n);
    }
  }

  lemma {:induction false} AlignedBlock<P>(full: seq<P>, tail: seq<P>, e: nat, n: nat, all: multiset<P>, k: nat)
    requires Blocks(full, e, n, all) && |tail| <= n && (|tail| == n ==> multiset(tail) == all)
    requires (k + 1) * n <= |full + tail|
    ensures 0 <= k * n <= (k + 1) * n && multiset((full + tail)[k * n..(k + 1) * n]) == all
  {
    BlocksLength(full, e, n, all);
    if k < e {
      BlockAt(full, e, n, all, k);
      assert (full + tail)[k * n..(k + 1) * n] == full[k * n..(k + 1) * n];
    } else {
      LastBlock(k, e, n, |tail|);
      assert k * n == e * n && (full + tail)[e * n..(k + 1) * n] == tail;
    }
  }

  /** Only an exactly finished epoch leaves room for a block after the counted ones. */
  lemma LastBlock(k: nat, e: nat, n: nat, index: nat)
    requires k >= e && index <= n && (k + 1) * n <= e * n + index
    ensures k * n == e * n && index == n && (k + 1) * n == e * n + n
  {
    assert (k + 1) * n == k * n + n && k * n == e * n + (k - e) * n;
  }

  /** From a new data set, for any shuffles and any batch sizes the data set can fill: each aligned block of n
      rows in the stream is a rearrangement of the original image-label pairs, and the epoch counter and index
      account for every row drawn. */
  lemma {:induction false} EveryEpochIsAPermutation<I, L>(images: seq<I>, labels: seq<L>, run: seq<Request>)
    requires |images| == |labels| && Fair(Data(images, labels, 0, 0), run)
    ensures var n, d, out := |images|, End(Data(images, labels, 0, 0), run), Stream(Data(images, labels, 0, 0), run);
            && |out| == Asked(run) == d.epochs * n + d.index
            && 0 <= d.index <= n
            && forall k: nat :: (k + 1) * n <= |out| ==> multiset(Block(out, n, k)) == multiset(Zip(images, labels))
  {
    var d0, n, all := Data(images, labels, 0, 0), |images|, multiset(Zip(images, labels));
    var full := RunTracks([], d0, run, n, all);
    var d, out := End(d0, run), Stream(d0, run);
    assert out == [] + Current(d0) + out;
    BlocksLength(full, d.epochs, n, all);
    assert d.index == n ==> Current(d) == Rows(d);
    forall k: nat | (k + 1) * n <= |out| ensures multiset(Block(out, n, k)) == all {
      AlignedBlock(full, Current(d), d.epochs, n, all, k);
    }
  }

  /** The `k`th aligned block of `n` rows. */
  function Block<P>(out: seq<P>, n: nat, k: nat): seq<P> {
    if 0 <= k * n <= (k + 1) * n <= |out| then out[k * n..(k + 1) * n] else []
  }

  // ---- Fairness ----

  lemma SplitCount<P>(s: seq<P>, i: nat, p: P)
    requires i <= |s|
    ensures multiset(s)[p] == multiset(s[..i])[p] + multiset(s[i..])[p]
  {
    assert s == s[..i] + s[i..];
  }

  lemma OneMoreTime(e: nat, times: nat)
    requires e > 0
    ensures times + (e - 1) * times == e * times
  {
  }

  lemma {:induction false} BlocksCount<P>(s: seq<P>, e: nat, n: nat, all: multiset<P>, p: P)
    requires Blocks(s, e, n, all)
    ensures multiset(s)[p] == e * all[p]
    decreases e
  {
    if e > 0 {
      BlocksCount(s[n..], e - 1, n, all, p);
      SplitCount(s, n, p);
      OneMoreTime(e, all[p]);
    }
  }

  /** Every row has been drawn once per completed epoch, and at most once more. */
  lemma {:induction false} RowsDrawnEvenly<I, L>(images: seq<I>, labels: seq<L>, run: seq<Request>, row: (I, L))
    requires |images| == |labels| && Fair(Data(images, labels, 0, 0), run)
    ensures var d, out := End(Data(images, labels, 0, 0), run), Stream(Data(images, labels, 0, 0), run);
            var times := multiset(Zip(images, labels))[row];
            d.epochs * times <= multiset(out)[row] <= (d.epochs + 1) * times
  {
    var d0, n, all := Data(images, labels, 0, 0), |images|, multiset(Zip(images, labels));
    var full := RunTracks([], d0, run, n, all);
    var d, out := End(d0, run), Stream(d0, run);
    assert out == [] + Current(d0) + out;
    BlocksCount(full, d.epochs, n, all, row);
    SplitCount(Rows(d), d.index, row);
    assert multiset(out) == multiset(full) + multiset(Current(d));
  }

  /** Any 2n-1 consecutive draws contain every row. */
  lemma {:induction false} EveryWindowHasEveryRow<I, L>(images: seq<I>, labels: seq<L>, run: seq<Request>,
                                                        row: (I, L), from: nat)
    requires |images| == |labels| && Fair(Data(images, labels, 0, 0), run) && row in Zip(images, labels)
    requires from + 2 * |images| - 1 <= |Stream(Data(images, labels, 0, 0), run)|
    ensures row in Stream(Data(images, labels, 0, 0), run)[from..from + 2 * |images| - 1]
  {
    hide Fair, Stream, End, Block, Asked;
    var n, out := |images|, Stream(Data(images, labels, 0, 0), run);
    EveryEpochIsAPermutation(images, labels, run);
    assert row in multiset(Zip(images, labels));
    assert n > 0;
    RowInWindow(out, n, multiset(Zip(images, labels)), from, row);
  }

  lemma RowInWindow<P>(out: seq<P>, n: nat, all: multiset<P>, from: nat, row: P)
    requires forall k: nat :: (k + 1) * n <= |out| ==> multiset(Block(out, n, k)) == all
    requires n > 0 && from + 2 * n - 1 <= |out| && row in all
    ensures row in out[from..from + 2 * n - 1]
  {
    var k := NextMultiple(from, n);
    assert row in multiset(Block(out, n, k));
    BlockInWindow(out, n, k, from, row);
  }

  lemma BlockInWindow<P>(out: seq<P>, n: nat, k: nat, from: nat, row: P)
    requires n > 0 && from <= k * n && (k + 1) * n <= from + 2 * n - 1 <= |out| && row in Block(out, n, k)
    ensures row in out[from..from + 2 * n - 1]
  {
    var lo := k * n;
    var j :| 0 <= j < |Block(out, n, k)| && Block(out, n, k)[j] == row;
    assert out[from..from + 2 * n - 1][lo + j - from] == row;
  }

  lemma NextMultiple(from: nat, n: nat) returns (k: nat)
    requires n > 0
    ensures from <= k * n && (k + 1) * n <= from + 2 * n - 1 && (k + 1) * n == k * n + n
  {
    k := (from + n - 1) / n;
    assert (from + n - 1) / n * n + (from + n - 1) % n == from + n - 1;
  }
}
