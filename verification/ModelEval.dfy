/** The build loop against a recursive evaluator of the dependency graph. */
module ModelEval {
  import opened Common
  import opened ModelGraph
  import opened ModelBuild

  // ---- Which optional inputs are bound whatever the order ----

  /** Each name of the chain importantly needs the next. */
  predicate IsChain(g: Model, chain: seq<string>) {
    && |chain| >= 2
    && forall i :: 0 <= i < |chain| - 1 ==> chain[i] in g && chain[i + 1] in Needs(g[chain[i]])
  }

  /** `n` importantly needs `m`, directly or through others. */
  ghost predicate Needed(g: Model, n: string, m: string) {
    exists chain :: IsChain(g, chain) && chain[0] == n && chain[|chain| - 1] == m
  }

  lemma NeededFirst(g: Model, n: string, m: string) returns (p: string)
    requires Needed(g, n, m)
    ensures n in g && p in Needs(g[n]) && (p == m || Needed(g, p, m))
  {
    var chain :| IsChain(g, chain) && chain[0] == n && chain[|chain| - 1] == m;
    p := chain[1];
    if |chain| > 2 {
      var rest := chain[1..];
      assert IsChain(g, rest) && rest[0] == p && rest[|rest| - 1] == m;
    }
  }

  lemma NeededMore(g: Model, n: string, p: string, m: string)
    requires n in g && p in Needs(g[n]) && (p == m || Needed(g, p, m))
    ensures Needed(g, n, m)
  {
    var rest := [m];
    if p != m { rest :| IsChain(g, rest) && rest[0] == p && rest[|rest| - 1] == m; }
    var chain := [n] + rest;
    assert forall i :: 1 <= i < |chain| ==> chain[i] == rest[i - 1];
    assert IsChain(g, chain) && chain[0] == n && chain[|chain| - 1] == m;
  }

  lemma {:induction false} NeededRank(g: Model, rank: map<string, nat>, n: string, m: string)
    requires Ranked(g, rank) && Needed(g, n, m)
    ensures n in g && m in g && rank[m] < rank[n]
    decreases if n in rank then rank[n] else 0
  {
    var p := NeededFirst(g, n, m);
    if p != m { NeededRank(g, rank, p, m); }
  }

  /** Whatever the order of the keys, `o` is created before `n`, or is not when `n` is. */
  ghost predicate Fixed(g: Model, n: string, o: string) {
    o !in g || o == n || Needed(g, n, o) || Needed(g, o, n)
  }

  /** Every optional input refers to a name outside the model, to an important ancestor of its component, to the
      component itself, or to one of its important descendants. */
  ghost predicate Settled(g: Model) {
    forall n, x :: n in g && x in g[n].inputs && !x.important ==> Fixed(g, n, x.ref.obj)
  }

  // ---- The evaluator ----

  /** The input is bound when its component is created. */
  ghost predicate Bound(g: Model, n: string, x: Input) {
    x.important || Needed(g, n, x.ref.obj)
  }

  lemma BoundRank(g: Model, rank: map<string, nat>, n: string, x: Input)
    requires Ranked(g, rank) && n in g && x in g[n].inputs && Bound(g, n, x)
    ensures x.ref.obj in g && rank[x.ref.obj] < rank[n]
  {
    if x.important { assert x.ref.obj in Needs(g[n]); } else { NeededRank(g, rank, n, x.ref.obj); }
  }

  /** What component `n` computes: evaluate what each of its bound inputs refers to, then initialise it. None when
      some variable does not exist or some component fails to initialise. */
  ghost function Eval<V>(g: Model, init: Init<V>, rank: map<string, nat>, n: string): Option<map<string, V>>
    requires Ranked(g, rank) && n in g
    decreases rank[n], 1, 0
  {
    match EvalInputs(g, init, rank, n, g[n].inputs, map[])
    case None => None
    case Some(bound) => init(n, g[n], bound)
  }

  ghost function EvalInputs<V>(g: Model, init: Init<V>, rank: map<string, nat>, n: string,
                               inputs: seq<Input>, bound: map<string, V>): Option<map<string, V>>
    requires Ranked(g, rank) && n in g
    requires forall x :: x in inputs ==> x in g[n].inputs
    decreases rank[n], 0, |inputs|
  {
    if inputs == [] then Some(bound)
    else
      var x := inputs[0];
      assert x in inputs;
      if !Bound(g, n, x) then EvalInputs(g, init, rank, n, inputs[1..], bound)
      else
        BoundRank(g, rank, n, x);
        match Eval(g, init, rank, x.ref.obj)
        case None => None
        case Some(out) =>
          if x.ref.out !in out then None
          else EvalInputs(g, init, rank, n, inputs[1..], bound[x.name := out[x.ref.out]])
  }

  // ---- The builder computes what the evaluator says ----

  /** Every component created so far holds what the evaluator says, and was created after all it needs. */
  ghost predicate Agrees<V>(g: Model, init: Init<V>, rank: map<string, nat>, created: map<string, map<string, V>>)
    requires Ranked(g, rank)
  {
    forall n :: n in created ==>
      n in g && Needs(g[n]) <= created.Keys && Eval(g, init, rank, n) == Some(created[n])
  }

  lemma {:induction false} CreatedNeeds<V>(g: Model, init: Init<V>, rank: map<string, nat>,
                                           created: map<string, map<string, V>>, n: string, m: string)
    requires Ranked(g, rank) && Agrees(g, init, rank, created) && n in g && Needs(g[n]) <= created.Keys
    requires Needed(g, n, m)
    ensures m in created
    decreases if n in rank then rank[n] else 0
  {
    var p := NeededFirst(g, n, m);
    if p != m { CreatedNeeds(g, init, rank, created, p, m); }
  }

  /** When `n` is ready and not yet created, an optional input's object exists exactly if the input is bound. */
  lemma OptionalReady<V>(g: Model, init: Init<V>, rank: map<string, nat>, created: map<string, map<string, V>>,
                         n: string, x: Input)
    requires Ranked(g, rank) && Agrees(g, init, rank, created) && n in g && n !in created
    requires Needs(g[n]) <= created.Keys && Fixed(g, n, x.ref.obj) && !x.important
    ensures x.ref.obj in created <==> Bound(g, n, x)
  {
    var o := x.ref.obj;
    if Needed(g, n, o) {
      CreatedNeeds(g, init, rank, created, n, o);
    } else if o in created && Needed(g, o, n) {
      CreatedNeeds(g, init, rank, created, o, n);
    }
  }

  /** Where probing raises, evaluation fails. */
  lemma {:induction false} RaiseAgrees<V>(g: Model, init: Init<V>, rank: map<string, nat>, n: string,
                                          inputs: seq<Input>, created: map<string, map<string, V>>,
                                          bound: map<string, V>)
    requires Ranked(g, rank) && n in g && Agrees(g, init, rank, created) && Probe(inputs, created).Raise?
    requires forall x :: x in inputs ==> x in g[n].inputs
    ensures EvalInputs(g, init, rank, n, inputs, bound).None?
    decreases |inputs|
  {
    var x := inputs[0];
    assert x in inputs;
    if !Bound(g, n, x) {
      RaiseAgrees(g, init, rank, n, inputs[1..], created, bound);
    } else {
      BoundRank(g, rank, n, x);
      var out := Eval(g, init, rank, x.ref.obj);
      if out.Some? && x.ref.out in out.value {
        RaiseAgrees(g, init, rank, n, inputs[1..], created, bound[x.name := out.value[x.ref.out]]);
      }
    }
  }

  /** Once everything important is there, binding the inputs gives what evaluating them gives. */
  lemma {:induction false} BindAgrees<V>(g: Model, init: Init<V>, rank: map<string, nat>, n: string,
                                         inputs: seq<Input>, created: map<string, map<string, V>>,
                                         bound: map<string, V>)
    requires Ranked(g, rank) && n in g && Agrees(g, init, rank, created)
    requires forall x :: x in inputs ==> x in g[n].inputs && (x.ref.obj in created <==> Bound(g, n, x))
    ensures EvalInputs(g, init, rank, n, inputs, bound) == Bind(inputs, created, bound)
    decreases |inputs|
  {
    if inputs != [] {
      var x := inputs[0];
      assert x in inputs;
      if x.ref.obj !in created {
        BindAgrees(g, init, rank, n, inputs[1..], created, bound);
      } else if x.ref.out in created[x.ref.obj] {
        BindAgrees(g, init, rank, n, inputs[1..], created, bound[x.name := created[x.ref.obj][x.ref.out]]);
      }
    }
  }

  lemma ReadyAgrees<V>(g: Model, init: Init<V>, rank: map<string, nat>, n: string,
                       created: map<string, map<string, V>>)
    requires Ranked(g, rank) && Settled(g) && n in g && n !in created && Agrees(g, init, rank, created)
    requires Probe(g[n].inputs, created).Go?
    ensures Needs(g[n]) <= created.Keys
    ensures EvalInputs(g, init, rank, n, g[n].inputs, map[]) == Bind(g[n].inputs, created, map[])
  {
    ProbeNeeds(g[n].inputs, created);
    forall x | x in g[n].inputs ensures x.ref.obj in created <==> Bound(g, n, x) {
      if !x.important { OptionalReady(g, init, rank, created, n, x); }
    }
    BindAgrees(g, init, rank, n, g[n].inputs, created, map[]);
  }

  /** An iteration creates what the evaluator says, and raises only where the evaluator fails. */
  lemma StepAgrees<V>(g: Model, init: Init<V>, rank: map<string, nat>, b: Builder<V>)
    requires Ranked(g, rank) && Settled(g) && Sound(g, b) && !Stopped(b) && Agrees(g, init, rank, b.created)
    ensures Agrees(g, init, rank, Step(g, init, b).created)
    ensures Step(g, init, b).failed ==> Eval(g, init, rank, b.pending[b.i]).None?
  {
    hide Settled, EvalInputs;
    var n := b.pending[b.i];
    match Probe(g[n].inputs, b.created)
    case Raise => RaiseAgrees(g, init, rank, n, g[n].inputs, b.created, map[]);
    case Go => ReadyAgrees(g, init, rank, n, b.created);
    case Wait =>
  }

  ghost predicate Evaluates<V>(g: Model, init: Init<V>, rank: map<string, nat>)
    requires Ranked(g, rank)
  {
    forall n :: n in g ==> Eval(g, init, rank, n).Some?
  }

  lemma {:induction false} IterateAgrees<V>(g: Model, init: Init<V>, rank: map<string, nat>, b: Builder<V>, k: nat)
    requires Ranked(g, rank) && Settled(g) && Sound(g, b) && Agrees(g, init, rank, b.created) && !b.failed
    ensures Agrees(g, init, rank, Iterate(g, init, b, k).created)
    ensures Iterate(g, init, b, k).failed ==> !Evaluates(g, init, rank)
    decreases k
  {
    hide Settled, Eval, Agrees;
    if k > 0 && !Stopped(b) {
      StepSound(g, init, b);
      StepAgrees(g, init, rank, b);
      if Step(g, init, b).failed {
        assert Iterate(g, init, b, k) == Step(g, init, b);
      } else {
        IterateAgrees(g, init, rank, Step(g, init, b), k - 1);
      }
    }
  }

  /** The build of `g` from the keys in this order, after n(n+1)/2 iterations. */
  ghost function Built<V>(g: Model, init: Init<V>, keys: seq<string>): Builder<V> {
    Iterate(g, init, Begin(keys), |keys| * (|keys| + 1) / 2)
  }

  lemma AgreedEnd<V>(g: Model, init: Init<V>, rank: map<string, nat>, b: Builder<V>)
    requires Ranked(g, rank) && Sound(g, b) && Stopped(b) && Agrees(g, init, rank, b.created)
    requires b.failed ==> !Evaluates(g, init, rank)
    ensures !b.failed <==> Evaluates(g, init, rank)
    ensures !b.failed ==> b.created.Keys == g.Keys &&
                          forall n :: n in g ==> Eval(g, init, rank, n) == Some(b.created[n])
  {
    hide Eval;
  }

  /** On a model whose important inputs stay inside it and never go in a circle, and whose optional inputs are
      settled, the loop has stopped after n(n+1)/2 iterations. It has succeeded if and only if every component
      evaluates, and then the outputs are exactly the evaluated ones. */
  lemma {:induction false} BuildIsEval<V>(g: Model, init: Init<V>, rank: map<string, nat>, keys: seq<string>)
    requires Lists(keys, g) && Ranked(g, rank) && Settled(g)
    ensures var b := Built(g, init, keys);
            && Stopped(b)
            && (!b.failed <==> Evaluates(g, init, rank))
            && (!b.failed ==> b.created.Keys == g.Keys &&
                              forall n :: n in g ==> Eval(g, init, rank, n) == Some(b.created[n]))
  {
    assert Agrees(g, init, rank, Begin<V>(keys).created);
    hide Settled, Eval, Agrees, Evaluates, Sound, Ranked;
    var k := |keys| * (|keys| + 1) / 2;
    BeginSound<V>(g, keys);
    RankedEnds(g, init, keys, rank);
    IterateSound(g, init, Begin(keys), k);
    IterateAgrees(g, init, rank, Begin(keys), k);
    AgreedEnd(g, init, rank, Iterate(g, init, Begin(keys), k));
  }

  /** The order of the keys makes no difference to whether the build succeeds, nor to the outputs. */
  ghost predicate SameBuild<V>(g: Model, init: Init<V>, keys: seq<string>, keys': seq<string>) {
    var b, b' := Built(g, init, keys), Built(g, init, keys');
    b.failed == b'.failed && (!b.failed ==> b.created == b'.created)
  }

  lemma {:induction false} KeyOrderIrrelevant<V>(g: Model, init: Init<V>, rank: map<string, nat>,
                                                 keys: seq<string>, keys': seq<string>)
    requires Lists(keys, g) && Lists(keys', g) && Ranked(g, rank) && Settled(g)
    ensures SameBuild(g, init, keys, keys')
  {
    hide Settled, Eval, Built;
    BuildIsEval(g, init, rank, keys);
    BuildIsEval(g, init, rank, keys');
  }

  // ---- The loop itself ----

  method CheckDependences<V>(inputs: seq<Input>, created: map<string, map<string, V>>) returns (v: Verdict)
    ensures v == Probe(inputs, created)
  {
    for j := 0 to |inputs|
      invariant Probe(inputs, created) == Probe(inputs[j..], created)
    {
      var ref := inputs[j].ref;
      if inputs[j].important {
        if ref.obj !in created { return Wait; }
        if ref.out !in created[ref.obj] { return Raise; }
      }
    }
    v := Go;
  }

  method SetInputs<V>(inputs: seq<Input>, created: map<string, map<string, V>>) returns (r: Option<map<string, V>>)
    ensures r == Bind(inputs, created, map[])
  {
    var bound: map<string, V> := map[];
    for j := 0 to |inputs|
      invariant Bind(inputs, created, map[]) == Bind(inputs[j..], created, bound)
    {
      var ref := inputs[j].ref;
      if ref.obj in created {
        if ref.out !in created[ref.obj] { return None; }
        bound := bound[inputs[j].name := created[ref.obj][ref.out]];
      }
    }
    r := Some(bound);
  }

  /** The loop body. */
  method Iteration<V>(g: Model, init: Init<V>, b: Builder<V>) returns (b': Builder<V>)
    requires !b.failed && b.i < |b.pending| && b.pending[b.i] in g
    ensures b' == Step(g, init, b)
  {
    var pending, i, created := b.pending, b.i, b.created;
    var name := pending[i];
    var verdict := CheckDependences(g[name].inputs, created);
    if verdict == Raise { return b.(failed := true); }
    if verdict == Go {
      var bound := SetInputs(g[name].inputs, created);
      if bound.None? { return b.(failed := true); }
      var results := init(name, g[name], bound.value);
      if results.None? { return b.(failed := true); }
      created := created[name := results.value];
      pending := Without(pending, i);
    }
    i := if i < |pending| - 1 then i + 1 else 0;
    b' := Builder(pending, i, created, false);
  }

  /** `n` more iterations take `b` to the end of its run. */
  ghost predicate EndsAt<V>(g: Model, init: Init<V>, b: Builder<V>, n: nat, end: Builder<V>) {
    Iterate(g, init, b, n) == end && Stopped(end) && Sound(g, b)
  }

  lemma {:induction false} OneLess<V>(g: Model, init: Init<V>, b: Builder<V>, n: nat, end: Builder<V>)
    requires EndsAt(g, init, b, n, end)
    ensures !Stopped(b) ==> n > 0 && EndsAt(g, init, Step(g, init, b), n - 1, end)
    ensures Stopped(b) ==> b == end
  {
    if !Stopped(b) { StepSound(g, init, b); }
  }

  method Turn<V>(g: Model, init: Init<V>, b: Builder<V>, ghost n: nat, ghost end: Builder<V>)
    returns (b': Builder<V>, ghost n': nat)
    requires EndsAt(g, init, b, n, end) && !Stopped(b)
    ensures n' == n - 1 && EndsAt(g, init, b', n', end)
  {
    OneLess(g, init, b, n, end);
    b' := Iteration(g, init, b);
    n' := n - 1;
  }

  /** On any model for which the source's loop ends: `HangsIff` says which they are. The result is None when something
      raised. */
  method CreateComponents<V>(g: Model, keys: seq<string>, init: Init<V>)
    returns (outputs: Option<map<string, map<string, V>>>)
    requires Lists(keys, g) && Ends(g, init, keys)
    ensures forall k: nat :: var b := Iterate(g, init, Begin(keys), k);
              Stopped(b) ==> outputs == if b.failed then None else Some(b.created)
  {
    var b: Builder<V> := Begin(keys);
    ghost var all :| Stopped(Iterate(g, init, b, all));
    ghost var n, end := all, Iterate(g, init, b, all);
    BeginSound<V>(g, keys);
    while b.pending != [] && !b.failed
      invariant EndsAt(g, init, b, n, end)
      decreases n
    {
      b, n := Turn(g, init, b, n, end);
    }
    OneLess(g, init, b, n, end);
    outputs := if b.failed then None else Some(b.created);
    forall k: nat | Stopped(Iterate(g, init, Begin(keys), k)) ensures Iterate(g, init, Begin(keys), k) == b {
      if k <= all { StoppedStays(g, init, Begin(keys), k, all); } else { StoppedStays(g, init, Begin(keys), all, k); }
    }
  }
}
