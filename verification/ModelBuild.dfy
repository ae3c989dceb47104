/** When the build loop stops, how soon, and what it has computed then. */
module ModelBuild {
  import opened ModelGraph

  /** `keys` lists every name of the model once: the order of the keys in the model file. */
  ghost predicate Lists(keys: seq<string>, g: Model) {
    Distinct(keys) && forall n :: n in keys <==> n in g
  }

  // ---- Progress ----

  /** How many failed probes lie between index `i` and index `r` of a list of `len`. */
  function Gap(i: nat, r: nat, len: nat): nat
    requires i < len && r < len
  {
    if i <= r then r - i else len - i + r
  }

  /** From any index the loop reaches a given ready name within one round; on the way, or there, a name is
      created or the build fails. */
  lemma {:induction false} RoundShrinks<V>(g: Model, init: Init<V>, b: Builder<V>, r: nat) returns (k: nat)
    requires Sound(g, b) && !Stopped(b) && r < |b.pending|
    requires !Probe(g[b.pending[r]].inputs, b.created).Wait?
    ensures k <= Gap(b.i, r, |b.pending|) + 1
    ensures var b' := Iterate(g, init, b, k); b'.failed || |b'.pending| == |b.pending| - 1
    decreases Gap(b.i, r, |b.pending|)
  {
    hide Distinct;
    var b1 := Step(g, init, b);
    StepSound(g, init, b);
    assert Iterate(g, init, b, 1) == Iterate(g, init, b1, 0) == b1;
    if Probe(g[b.pending[b.i]].inputs, b.created).Wait? {
      k := RoundShrinks(g, init, b1, r);
      k := k + 1;
    } else {
      k := 1;
    }
  }

  lemma SomethingReady<V>(g: Model, b: Builder<V>) returns (r: nat)
    requires Sound(g, b) && !Stopped(b) && Grounded(g)
    ensures r < |b.pending| && !Probe(g[b.pending[r]].inputs, b.created).Wait?
  {
    assert !AllWait(g, b) by {
      assert b.pending[0] in g.Keys && b.pending[0] !in b.created.Keys;
      if AllWait(g, b) { AllWaitClosed(g, b); }
    }
    r :| 0 <= r < |b.pending| && !Probe(g[b.pending[r]].inputs, b.created).Wait?;
  }

  function Triangle(n: nat): nat {
    if n == 0 then 0 else n + Triangle(n - 1)
  }

  lemma {:induction false} TriangleFormula(n: nat)
    ensures 2 * Triangle(n) == n * (n + 1)
  {
    if n > 0 { TriangleFormula(n - 1); }
  }

  lemma ThenStops<V>(g: Model, init: Init<V>, b: Builder<V>, j: nat, k: nat, all: nat)
    requires Stopped(Iterate(g, init, Iterate(g, init, b, j), k)) && j + k <= all
    ensures Stopped(Iterate(g, init, b, all))
  {
    IterateSplit(g, init, b, j, k);
    StoppedStays(g, init, b, j + k, all);
  }

  lemma {:induction false} StopsByTriangle<V>(g: Model, init: Init<V>, b: Builder<V>)
    requires Sound(g, b) && Grounded(g)
    ensures Stopped(Iterate(g, init, b, Triangle(|b.pending|)))
    decreases |b.pending|
  {
    if !Stopped(b) {
      var r := SomethingReady(g, b);
      var k := RoundShrinks(g, init, b, r);
      IterateSound(g, init, b, k);
      var b' := Iterate(g, init, b, k);
      if b'.failed {
        ThenStops(g, init, b, k, 0, Triangle(|b.pending|));
      } else {
        StopsByTriangle(g, init, b');
        ThenStops(g, init, b, k, Triangle(|b'.pending|), Triangle(|b.pending|));
      }
    }
  }

  /** A build in which no name waits on a cycle or a missing name has stopped after n(n+1)/2 iterations. */
  lemma StopsWithin<V>(g: Model, init: Init<V>, b: Builder<V>)
    requires Sound(g, b) && Grounded(g)
    ensures var n := |b.pending|; Triangle(n) == n * (n + 1) / 2 && Stopped(Iterate(g, init, b, n * (n + 1) / 2))
  {
    TriangleFormula(|b.pending|);
    StopsByTriangle(g, init, b);
  }

  // ---- Hanging ----

  lemma RankedGrounded(g: Model, rank: map<string, nat>)
    requires Ranked(g, rank)
    ensures Grounded(g)
  {
    forall names, n | Closed(g, names) && n in g ensures n in names {
      RankedInside(g, rank, names, n);
    }
  }

  lemma {:induction false} RankedInside(g: Model, rank: map<string, nat>, names: set<string>, n: string)
    requires Ranked(g, rank) && Closed(g, names) && n in g
    ensures n in names
    decreases rank[n]
  {
    forall m | m in Needs(g[n]) ensures m in names {
      RankedInside(g, rank, names, m);
    }
  }

  ghost predicate CertifiesCreated<V>(g: Model, b: Builder<V>, rank: map<string, nat>, top: nat) {
    && rank.Keys == b.created.Keys
    && (forall n :: n in rank ==> rank[n] < top)
    && forall n, m :: n in b.created && n in g && m in Needs(g[n]) ==> m in rank && rank[m] < rank[n]
  }

  lemma CreationRankStep<V>(g: Model, init: Init<V>, b: Builder<V>, rank: map<string, nat>, top: nat)
    returns (out: map<string, nat>)
    requires Sound(g, b) && !Stopped(b) && CertifiesCreated(g, b, rank, top)
    ensures CertifiesCreated(g, Step(g, init, b), out, top + 1)
  {
    var n, b' := b.pending[b.i], Step(g, init, b);
    ProbeNeeds(g[n].inputs, b.created);
    out := if n in b'.created then rank[n := top] else rank;
  }

  /** The order of creation is itself a certificate for the names created. */
  lemma {:induction false} CreationRank<V>(g: Model, init: Init<V>, b: Builder<V>, k: nat,
                                           rank: map<string, nat>, top: nat)
    returns (out: map<string, nat>)
    requires Sound(g, b) && CertifiesCreated(g, b, rank, top)
    ensures CertifiesCreated(g, Iterate(g, init, b, k), out, top + k)
    decreases k
  {
    hide Sound;
    if k == 0 || Stopped(b) {
      out := rank;
    } else {
      StepSound(g, init, b);
      out := CreationRankStep(g, init, b, rank, top);
      out := CreationRank(g, init, Step(g, init, b), k - 1, out, top + 1);
    }
  }

  lemma BeginSound<V>(g: Model, keys: seq<string>)
    requires Lists(keys, g)
    ensures Sound(g, Begin<V>(keys))
  {
  }

  /** The loop comes to an end: its list is empty, or it raises. */
  ghost predicate Ends<V>(g: Model, init: Init<V>, keys: seq<string>) {
    exists k :: Stopped(Iterate(g, init, Begin(keys), k))
  }

  ghost predicate Raises<V>(g: Model, init: Init<V>, keys: seq<string>) {
    exists k :: Iterate(g, init, Begin(keys), k).failed
  }

  lemma RankedEnds<V>(g: Model, init: Init<V>, keys: seq<string>, rank: map<string, nat>)
    requires Lists(keys, g) && Ranked(g, rank)
    ensures Stopped(Iterate(g, init, Begin(keys), |keys| * (|keys| + 1) / 2))
  {
    BeginSound<V>(g, keys);
    RankedGrounded(g, rank);
    StopsWithin(g, init, Begin(keys));
  }

  lemma AllCreatedRanked<V>(g: Model, b: Builder<V>, rank: map<string, nat>, top: nat)
    requires Sound(g, b) && b.pending == [] && CertifiesCreated(g, b, rank, top)
    ensures Ranked(g, rank)
  {
  }

  lemma EndedRanked<V>(g: Model, init: Init<V>, keys: seq<string>, k: nat) returns (rank: map<string, nat>)
    requires Lists(keys, g) && Iterate(g, init, Begin(keys), k).pending == []
    ensures Ranked(g, rank)
  {
    assert CertifiesCreated(g, Begin<V>(keys), map[], 0);
    hide Sound, CertifiesCreated, Ranked;
    BeginSound<V>(g, keys);
    IterateSound(g, init, Begin(keys), k);
    rank := CreationRank(g, init, Begin(keys), k, map[], 0);
    AllCreatedRanked(g, Iterate(g, init, Begin(keys), k), rank, k);
  }

  /** On every model: the loop ends if and only if something raises, or the important inputs stay inside the model
      and never go in a circle; and in that last case it ends within n(n+1)/2 iterations. */
  lemma HangsIff<V>(g: Model, init: Init<V>, keys: seq<string>)
    requires Lists(keys, g)
    ensures Ends(g, init, keys) <==> Raises(g, init, keys) || exists rank :: Ranked(g, rank)
    ensures (exists rank :: Ranked(g, rank)) ==> Stopped(Iterate(g, init, Begin(keys), |keys| * (|keys| + 1) / 2))
  {
    if rank :| Ranked(g, rank) {
      RankedEnds(g, init, keys, rank);
    } else if k :| Stopped(Iterate(g, init, Begin(keys), k)) {
      if !Iterate(g, init, Begin(keys), k).failed { var rank := EndedRanked(g, init, keys, k); }
    }
  }

  /** A model of one component that needs another which is not there. */
  const LONELY := map["b" := Item("B", "1", [Input("x", Ref("a", "out"), true)])]

  lemma {:induction false} LonelyWaits<V>(init: Init<V>, k: nat)
    ensures Iterate(LONELY, init, Begin(["b"]), k) == Begin(["b"])
    decreases k
  {
    if k > 0 {
      var b: Builder<V> := Begin(["b"]);
      assert LONELY["b"].inputs[0] == Input("x", Ref("a", "out"), true);
      assert Step(LONELY, init, b) == b;
      LonelyWaits(init, k - 1);
    }
  }

  /** Its build never ends, whatever the components do. */
  lemma LonelyHangs<V>(init: Init<V>)
    ensures Lists(["b"], LONELY) && !Ends(LONELY, init, ["b"])
  {
    forall k: nat ensures !Stopped(Iterate(LONELY, init, Begin(["b"]), k)) { LonelyWaits(init, k); }
  }

  /** The names created are always inside every closed set; once a whole round of probes has failed they are
      a closed set themselves, so they are the least one, and they stay so for ever. */
  lemma CreatedIsLeast<V>(g: Model, init: Init<V>, keys: seq<string>, k: nat)
    requires Lists(keys, g)
    ensures forall names :: Closed(g, names) ==> Iterate(g, init, Begin(keys), k).created.Keys <= names
    ensures var b := Iterate(g, init, Begin(keys), k);
            Sound(g, b) && (!b.failed && AllWait(g, b) ==>
              && Closed(g, b.created.Keys)
              && forall j :: k <= j ==> Iterate(g, init, Begin(keys), j).created == b.created)
  {
    BeginSound<V>(g, keys);
    IterateSound(g, init, Begin(keys), k);
    forall names | Closed(g, names) ensures Iterate(g, init, Begin(keys), k).created.Keys <= names {
      CreatedInside(g, init, Begin(keys), k, names);
    }
    var b := Iterate(g, init, Begin(keys), k);
    if !b.failed && AllWait(g, b) {
      AllWaitClosed(g, b);
      forall j | k <= j ensures Iterate(g, init, Begin(keys), j).created == b.created {
        StuckFrom(g, init, Begin(keys), k, j);
      }
    }
  }

  lemma StuckFrom<V>(g: Model, init: Init<V>, b: Builder<V>, k: nat, j: nat)
    requires k <= j && var mid := Iterate(g, init, b, k); Sound(g, mid) && AllWait(g, mid) && !mid.failed
    ensures Iterate(g, init, b, j).created == Iterate(g, init, b, k).created
  {
    IterateSplit(g, init, b, k, j - k);
    StuckStays(g, init, Iterate(g, init, b, k), j - k);
  }

  lemma {:induction false} StuckStays<V>(g: Model, init: Init<V>, b: Builder<V>, k: nat)
    requires Sound(g, b) && AllWait(g, b) && !b.failed
    ensures Iterate(g, init, b, k).created == b.created
    decreases k
  {
    if k > 0 && !Stopped(b) {
      StepSound(g, init, b);
      StuckStays(g, init, Step(g, init, b), k - 1);
    }
  }

  /** A round of probes that created nothing probed every pending name in vain. */
  lemma WholeRoundFailed<V>(g: Model, init: Init<V>, b: Builder<V>)
    requires Sound(g, b) && !Stopped(b)
    requires var b' := Iterate(g, init, b, |b.pending|); !b'.failed && b'.pending == b.pending
    ensures AllWait(g, b)
  {
    if !AllWait(g, b) {
      var r :| 0 <= r < |b.pending| && !Probe(g[b.pending[r]].inputs, b.created).Wait?;
      var k := RoundShrinks(g, init, b, r);
      if Iterate(g, init, b, k).failed {
        StoppedStays(g, init, b, k, |b.pending|);
      } else {
        ShrunkStays(g, init, b, k, |b.pending|);
      }
    }
  }

  lemma {:induction false} PendingShrinks<V>(g: Model, init: Init<V>, b: Builder<V>, k: nat)
    requires Sound(g, b)
    ensures |Iterate(g, init, b, k).pending| <= |b.pending|
    decreases k
  {
    if k > 0 && !Stopped(b) {
      StepSound(g, init, b);
      PendingShrinks(g, init, Step(g, init, b), k - 1);
    }
  }

  lemma ShrunkStays<V>(g: Model, init: Init<V>, b: Builder<V>, j: nat, k: nat)
    requires Sound(g, b) && j <= k
    ensures |Iterate(g, init, b, k).pending| <= |Iterate(g, init, b, j).pending|
    decreases j
  {
    if j == 0 || Stopped(b) {
      PendingShrinks(g, init, b, k);
    } else {
      StepSound(g, init, b);
      ShrunkStays(g, init, Step(g, init, b), j - 1, k - 1);
    }
  }
}
