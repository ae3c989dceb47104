/** In which order the rows are drawn: which shuffle orders which epoch. */
module EpochOrder {
  import opened Common
  import opened EpochBatches
  import opened EpochStream
  import OneHot

  /** The data set after the first `j` calls of a run. */
  ghost function After<I, L>(d: Data<I, L>, run: seq<Request>, j: nat): Data<I, L>
    requires Fair(d, run) && j <= |run|
    decreases j
  {
    if j == 0 then d else After(Next(d, run[0]), run[1..], j - 1)
  }

  lemma SoundNext<I, L>(d: Data<I, L>, r: Request)
    requires Sound(d) && Fits(d, r) && Modest(d, r)
    ensures Sound(Next(d, r)) && |Next(d, r).images| == |d.images|
  {
    FullBatchIff(d, r);
    ShuffleIndexes(r.perm0, |d.images|);
    ShuffleIndexes(r.perm, |d.images|);
  }

  lemma {:induction false} SoundAfter<I, L>(d: Data<I, L>, run: seq<Request>, j: nat)
    requires Fair(d, run) && Sound(d) && j <= |run|
    ensures Sound(After(d, run, j)) && |After(d, run, j).images| == |d.images| && Fair(After(d, run, j), run[j..])
    decreases j
  {
    if j > 0 {
      SoundNext(d, run[0]);
      SoundAfter(Next(d, run[0]), run[1..], j - 1);
      assert run[1..][j - 1..] == run[j..];
    } else {
      assert run[0..] == run;
    }
  }

  /** What has been drawn of the current epoch, and all that the rest of the run draws. */
  ghost function Ahead<I, L>(d: Data<I, L>, run: seq<Request>): seq<(I, L)>
    requires Fair(d, run) && Sound(d)
  {
    Current(d) + Stream(d, run)
  }

  lemma AheadStep<I, L>(d: Data<I, L>, run: seq<Request>)
    requires Fair(d, run) && Sound(d) && run != []
    ensures var d', o := Next(d, run[0]), Opened(d, run[0]);
            && Sound(d') && Sound(o) && |d'.images| == |o.images| == |d.images|
            && |Rows(o)| == |d.images| && d'.epochs == d.epochs + (if Wraps(d, run[0]) then 1 else 0)
            && Ahead(d, run) == (if Wraps(d, run[0]) then Rows(o) else []) + Ahead(d', run[1..])
            && (!Wraps(d, run[0]) ==> Rows(d') == Rows(o))
  {
    var r, d' := run[0], Next(d, run[0]);
    SoundNext(d, r);
    OpenedRows(d, r);
    Cat(Current(d), Drawn(d, r), Stream(d', run[1..]));
    if Wraps(d, r) {
      WrappingRows(d, r);
      Cat(Rows(Opened(d, r)), Current(d'), Stream(d', run[1..]));
    } else {
      StraightRows(d, r);
    }
  }

  /** The data set has been drawn from, so no call will shuffle it as at the very beginning. */
  predicate Begun<I, L>(d: Data<I, L>) {
    d.epochs > 0 || d.index > 0
  }

  /** The rows of the current epoch come in the current order. */
  lemma {:induction false} EpochInOrder<I, L>(d: Data<I, L>, run: seq<Request>, i: nat)
    requires Fair(d, run) && Sound(d) && Begun(d) && i < |d.images| && i < |Ahead(d, run)|
    ensures Ahead(d, run)[i] == Rows(d)[i]
    decreases |run|
  {
    if run == [] {
      assert Ahead(d, run) == Current(d);
    } else {
      AheadStep(d, run);
      assert Opened(d, run[0]) == d;
      if !Wraps(d, run[0]) {
        assert [] + Ahead(Next(d, run[0]), run[1..]) == Ahead(Next(d, run[0]), run[1..]);
        EpochInOrder(Next(d, run[0]), run[1..], i);
      }
    }
  }

  // ---- The first epoch ----

  lemma AllAhead<I, L>(d: Data<I, L>, run: seq<Request>)
    requires Fair(d, run) && Sound(d) && d.index == 0
    ensures Ahead(d, run) == Stream(d, run)
  {
  }

  lemma OpeningRow<I, L>(d: Data<I, L>, r: Request, i: nat)
    requires Sound(d) && Fits(d, r) && Modest(d, r) && d.epochs == d.index == 0 && r.size > 0 && i < |d.images|
    ensures |r.perm0| == |d.images| && r.perm0[i] < |d.images| && Begun(Next(d, r))
    ensures var o := Opened(d, r);
            && Sound(o) && |Rows(o)| == |d.images| == |Zip(d.images, d.labels)|
            && Rows(o)[i] == Zip(d.images, d.labels)[if r.shuffle then r.perm0[i] else i]
  {
    ShuffleIndexes(r.perm0, |d.images|);
  }

  /** If the first call asks for anything, it settles the order of the first epoch: that of its first shuffle, or the
      order in which the rows were given. */
  lemma FirstEpoch<I, L>(images: seq<I>, labels: seq<L>, run: seq<Request>, i: nat)
    requires |images| == |labels| && Fair(Data(images, labels, 0, 0), run) && run != [] && run[0].size > 0
    requires i < |images| && i < |Stream(Data(images, labels, 0, 0), run)|
    ensures |run[0].perm0| == |images| && run[0].perm0[i] < |images|
    ensures Stream(Data(images, labels, 0, 0), run)[i] ==
              Zip(images, labels)[if run[0].shuffle then run[0].perm0[i] else i]
  {
    var d, r := Data(images, labels, 0, 0), run[0];
    var d' := Next(d, r);
    OpeningRow(d, r, i);
    AheadStep(d, run);
    AllAhead(d, run);
    hide Next, Opened, Ahead, Rows, Modest, Fits, Stream, IsShuffle, Zip;
    if !Wraps(d, r) {
      assert [] + Ahead(d', run[1..]) == Ahead(d', run[1..]);
      EpochInOrder(d', run[1..], i);
    }
  }

  // ---- Every later epoch ----

  function Times(e: nat, n: nat): nat {
    if e == 0 then 0 else n + Times(e - 1, n)
  }

  lemma {:induction false} TimesIsProduct(e: nat, n: nat)
    ensures Times(e, n) == e * n
  {
    if e > 0 { TimesIsProduct(e - 1, n); }
  }

  lemma {:induction false} AheadAt<I, L>(d: Data<I, L>, run: seq<Request>, j: nat) returns (full: seq<(I, L)>)
    requires Fair(d, run) && Sound(d) && j <= |run|
    ensures var d' := After(d, run, j);
            && Sound(d') && Fair(d', run[j..]) && d'.epochs >= d.epochs
            && |full| == Times(d'.epochs - d.epochs, |d.images|)
            && Ahead(d, run) == full + Ahead(d', run[j..])
    decreases j
  {
    hide Next, Opened, Ahead, Rows, Modest, Fits, Wraps;
    SoundAfter(d, run, j);
    if j == 0 {
      full := [];
      assert [] + Ahead(d, run) == Ahead(d, run);
      assert run[0..] == run;
    } else {
      AheadStep(d, run);
      var d1, turn := Next(d, run[0]), if Wraps(d, run[0]) then Rows(Opened(d, run[0])) else [];
      var rest := AheadAt(d1, run[1..], j - 1);
      assert run[1..][j - 1..] == run[j..];
      full := turn + rest;
      Cat(turn, rest, Ahead(After(d, run, j), run[j..]));
    }
  }

  /** Which row of an epoch comes as row `i` of the next, if call `r` ends it. */
  function Source(r: Request, i: nat): nat {
    if !r.shuffle then i else if i < |r.perm| then r.perm[i] else 0
  }

  lemma NextRow<I, L>(d: Data<I, L>, r: Request, i: nat)
    requires Sound(d) && Fits(d, r) && Modest(d, r) && Wraps(d, r) && i < |d.images|
    ensures |r.perm| == |d.images| && r.perm[i] < |d.images| && Source(r, i) < |d.images|
    ensures var o, d' := Opened(d, r), Next(d, r);
            && Sound(o) && Sound(d') && |o.images| == |d'.images| == |d.images| && Begun(d')
            && |Rows(o)| == |Rows(d')| == |d.images| && Rows(d')[i] == Rows(o)[Source(r, i)]
  {
    ShuffleIndexes(r.perm, |d.images|);
    OpenedRows(d, r);
    SoundNext(d, r);
  }

  /** The call that ends an epoch rearranges its rows for the next, or does not. */
  lemma TwoEpochs<I, L>(d: Data<I, L>, run: seq<Request>, i: nat)
    requires Fair(d, run) && Sound(d) && run != [] && Wraps(d, run[0])
    requires i < |d.images| && |d.images| + i < |Ahead(d, run)|
    ensures |run[0].perm| == |d.images| && run[0].perm[i] < |d.images| && Source(run[0], i) < |d.images|
    ensures Ahead(d, run)[|d.images| + i] == Ahead(d, run)[Source(run[0], i)]
  {
    NextRow(d, run[0], i);
    AheadStep(d, run);
    hide Next, Opened, Ahead, Rows, Modest, Fits, Source;
    EpochInOrder(Next(d, run[0]), run[1..], i);
  }

  lemma Shift<P>(out: seq<P>, full: seq<P>, ahead: seq<P>, a: nat, b: nat)
    requires out == full + ahead && a < |ahead| && b < |ahead| && ahead[a] == ahead[b]
    ensures out[|full| + a] == out[|full| + b]
  {
  }

  /** `base` rows are drawn before the epoch that call `j` ends. */
  lemma LaterAt<I, L>(d: Data<I, L>, run: seq<Request>, j: nat, i: nat, base: nat)
    requires Fair(d, run) && Sound(d) && d.epochs == d.index == 0 && j < |run| && i < |d.images|
    requires Wraps(After(d, run, j), run[j])
    requires base == Times(After(d, run, j).epochs, |d.images|) && base + |d.images| + i < |Stream(d, run)|
    ensures |run[j].perm| == |d.images| && run[j].perm[i] < |d.images| && Source(run[j], i) < |d.images|
    ensures Stream(d, run)[base + |d.images| + i] == Stream(d, run)[base + Source(run[j], i)]
  {
    hide Next, Opened, Ahead, Rows, Modest, Fits, Wraps, After, Stream, Fair, IsShuffle, Source, Times;
    var out, dj, n := Stream(d, run), After(d, run, j), |d.images|;
    var full := AheadAt(d, run, j);
    AllAhead(d, run);
    SoundAfter(d, run, j);
    assert run[j..][0] == run[j];
    TwoEpochs(dj, run[j..], i);
    Shift(out, full, Ahead(dj, run[j..]), n + i, Source(run[j], i));
  }

  /** The call that ends epoch `k` settles the order of the next: that of epoch `k`, rearranged by the call's shuffle
      if it shuffles. */
  lemma LaterEpoch<I, L>(images: seq<I>, labels: seq<L>, run: seq<Request>, j: nat, k: nat, i: nat)
    requires |images| == |labels| && Fair(Data(images, labels, 0, 0), run) && j < |run| && i < |images|
    requires var d := After(Data(images, labels, 0, 0), run, j); d.epochs == k && Wraps(d, run[j])
    requires (k + 1) * |images| + i < |Stream(Data(images, labels, 0, 0), run)|
    ensures |run[j].perm| == |images| && run[j].perm[i] < |images|
    ensures Same(Stream(Data(images, labels, 0, 0), run), (k + 1) * |images| + i,
                 k * |images| + if run[j].shuffle then run[j].perm[i] else i)
  {
    hide Next, Opened, Modest, Fits, Wraps, After, Stream, Fair, Times;
    var d, n := Data(images, labels, 0, 0), |images|;
    TimesIsProduct(k, n);
    TimesIsProduct(k + 1, n);
    assert (k + 1) * n == Times(k, n) + n;
    LaterAt(d, run, j, i, Times(k, n));
  }

  /** Draws `a` and `b` give the same row. */
  predicate Same<P(==)>(out: seq<P>, a: int, b: int) {
    0 <= a < |out| && 0 <= b < |out| && out[a] == out[b]
  }

  /** And every epoch that has ended was ended by such a call. */
  lemma {:induction false} EpochEnds<I, L>(d: Data<I, L>, run: seq<Request>, k: nat) returns (j: nat)
    requires Fair(d, run) && Sound(d) && d.epochs <= k < End(d, run).epochs
    ensures j < |run| && After(d, run, j).epochs == k && Wraps(After(d, run, j), run[j])
    decreases |run|
  {
    SoundNext(d, run[0]);
    if Wraps(d, run[0]) && d.epochs == k {
      j := 0;
    } else {
      j := EpochEnds(Next(d, run[0]), run[1..], k);
      j := j + 1;
    }
  }

  // ---- No shuffling ----

  lemma UnshuffledStep<I, L>(d: Data<I, L>, run: seq<Request>)
    requires Fair(d, run) && Sound(d) && run != [] && !run[0].shuffle
    ensures var d' := Next(d, run[0]);
            && Sound(d') && |d'.images| == |d.images| == |Rows(d)| && Rows(d') == Rows(d)
            && Ahead(d, run) == (if Wraps(d, run[0]) then Rows(d) else []) + Ahead(d', run[1..])
  {
    AheadStep(d, run);
  }

  /** The place of draw `i` in its epoch. */
  function Place(i: nat, n: nat): (place: nat)
    requires n > 0
    ensures place < n
  {
    if i < n then i else Place(i - n, n)
  }

  lemma {:induction false} PlaceIsRest(i: nat, n: nat)
    requires n > 0
    ensures Place(i, n) == i % n
  {
    if i < n {
      OneHot.SameRow(n, i / n, i % n, 0, i);
    } else {
      PlaceIsRest(i - n, n);
      var q, r := (i - n) / n, (i - n) % n;
      assert i == (q + 1) * n + r;
      OneHot.SameRow(n, i / n, i % n, q + 1, r);
    }
  }

  lemma {:induction false} AheadUnshuffled<I, L>(d: Data<I, L>, run: seq<Request>, i: nat)
    requires Fair(d, run) && Sound(d) && i < |Ahead(d, run)| && |d.images| > 0
    requires forall r :: r in run ==> !r.shuffle
    ensures Ahead(d, run)[i] == Rows(d)[Place(i, |d.images|)]
    decreases |run|
  {
    if run == [] {
      assert Ahead(d, run) == Current(d);
    } else {
      hide Next, Opened, Ahead, Rows, Modest, Fits, Wraps, Stream;
      assert run[0] in run;
      UnshuffledStep(d, run);
      var n, d' := |d.images|, Next(d, run[0]);
      if !Wraps(d, run[0]) {
        assert [] + Ahead(d', run[1..]) == Ahead(d', run[1..]);
        AheadUnshuffled(d', run[1..], i);
      } else if i >= n {
        AheadUnshuffled(d', run[1..], i - n);
      }
    }
  }

  /** If no call shuffles, the rows come round and round in the order in which they were given. */
  lemma Unshuffled<I, L>(images: seq<I>, labels: seq<L>, run: seq<Request>, i: nat)
    requires |images| == |labels| && Fair(Data(images, labels, 0, 0), run) && |images| > 0
    requires forall r :: r in run ==> !r.shuffle
    requires i < |Stream(Data(images, labels, 0, 0), run)|
    ensures Stream(Data(images, labels, 0, 0), run)[i] == Zip(images, labels)[i % |images|]
  {
    var d := Data(images, labels, 0, 0);
    assert Ahead(d, run) == Stream(d, run);
    AheadUnshuffled(d, run, i);
    PlaceIsRest(i, |images|);
  }
}
