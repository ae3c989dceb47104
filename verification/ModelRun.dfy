/** Choosing which components of a phase to run: those no component of the phase refers to. */
module ModelRun {
  import opened ModelGraph

  function DependenceNames(item: Item): set<string> {
    set x | x in item.inputs && x.ref.obj != "" :: x.ref.obj
  }

  /** The components of the phase that none of its components depends on. */
  function Sinks(phase: Model): set<string> {
    phase.Keys - set n, m | n in phase && m in DependenceNames(phase[n]) :: m
  }

  /** Component `item` has an input, important or not, that refers to the object `m`. */
  predicate RefersTo(item: Item, m: string) {
    exists i :: 0 <= i < |item.inputs| && item.inputs[i].ref.obj == m
  }

  /** `n` is run: no component of the phase refers to it. A reference to the empty name counts for nothing. */
  ghost predicate IsRun(phase: Model, n: string) {
    n in phase && (n == "" || forall m :: m in phase ==> !RefersTo(phase[m], n))
  }

  lemma DependsIff(item: Item, m: string)
    ensures m in DependenceNames(item) <==> m != "" && RefersTo(item, m)
  {
    if m in DependenceNames(item) {
      var x :| x in item.inputs && x.ref.obj == m;
      var i :| 0 <= i < |item.inputs| && item.inputs[i] == x;
    }
    if m != "" && RefersTo(item, m) {
      var i :| 0 <= i < |item.inputs| && item.inputs[i].ref.obj == m;
      assert item.inputs[i] in item.inputs;
    }
  }

  lemma SinksIff(phase: Model, n: string)
    ensures n in Sinks(phase) <==> IsRun(phase, n)
  {
    hide DependenceNames, RefersTo;
    if n in phase {
      forall m | m in phase ensures n in DependenceNames(phase[m]) <==> n != "" && RefersTo(phase[m], n) {
        DependsIff(phase[m], n);
      }
    }
  }

  /** `path` goes from one component to another, each referring to the next by some input. */
  predicate IsPath(phase: Model, path: seq<string>) {
    && path != []
    && (forall i :: 0 <= i < |path| ==> path[i] in phase)
    && (forall i :: 0 <= i < |path| - 1 ==> RefersTo(phase[path[i]], path[i + 1]))
  }

  /** Inside the phase, references never go in a circle. */
  ghost predicate Acyclic(phase: Model, rank: map<string, nat>) {
    && phase.Keys <= rank.Keys
    && forall n, m :: n in phase && m in phase && RefersTo(phase[n], m) ==> rank[m] < rank[n]
  }

  ghost function Above(phase: Model, rank: map<string, nat>, c: string): set<string>
    requires Acyclic(phase, rank) && c in phase
  {
    set n | n in phase && rank[n] > rank[c]
  }

  /** Every component of the phase is run, or is a transitive dependence of one that is. */
  lemma {:induction false} RunsReachAll(phase: Model, rank: map<string, nat>, c: string) returns (path: seq<string>)
    requires Acyclic(phase, rank) && c in phase
    ensures IsPath(phase, path) && IsRun(phase, path[0]) && path[|path| - 1] == c
    decreases Above(phase, rank, c)
  {
    if IsRun(phase, c) {
      path := [c];
    } else {
      var n :| n in phase && RefersTo(phase[n], c);
      assert n in Above(phase, rank, c) && n !in Above(phase, rank, n);
      path := RunsReachAll(phase, rank, n);
      path := path + [c];
    }
  }

  /** `res` lists every output of the components `names` once; `from` says whose and which each one is. */
  ghost predicate ListsOutputs<V>(res: seq<V>, from: seq<(string, string)>, created: map<string, map<string, V>>,
                                  names: set<string>) {
    && |res| == |from|
    && (forall i, j :: 0 <= i < j < |from| ==> from[i] != from[j])
    && (forall p :: p in from <==> p.0 in names && p.0 in created && p.1 in created[p.0])
    && (forall i :: 0 <= i < |res| ==> res[i] == created[from[i].0][from[i].1])
  }

  lemma ListsBoth<V>(a: seq<V>, fromA: seq<(string, string)>, namesA: set<string>,
                     b: seq<V>, fromB: seq<(string, string)>, namesB: set<string>,
                     created: map<string, map<string, V>>)
    requires ListsOutputs(a, fromA, created, namesA) && ListsOutputs(b, fromB, created, namesB) && namesA !! namesB
    ensures ListsOutputs(a + b, fromA + fromB, created, namesA + namesB)
  {
    var from := fromA + fromB;
    forall i, j | 0 <= i < j < |from| ensures from[i] != from[j] {
      if i < |fromA| <= j {
        assert from[i] in fromA && from[j] in fromB;
      }
    }
  }

  method OutputsOf<V>(n: string, created: map<string, map<string, V>>)
    returns (res: seq<V>, ghost from: seq<(string, string)>)
    requires n in created
    ensures ListsOutputs(res, from, created, {n})
  {
    res, from := [], [];
    var left := created[n].Keys;
    while left != {}
      invariant left <= created[n].Keys && |res| == |from|
      invariant forall i, j :: 0 <= i < j < |from| ==> from[i] != from[j]
      invariant forall p :: p in from <==> p.0 == n && p.1 in created[n] && p.1 !in left
      invariant forall i :: 0 <= i < |res| ==> res[i] == created[from[i].0][from[i].1]
      decreases |left|
    {
      var o :| o in left;
      left := left - {o};
      res, from := res + [created[n][o]], from + [(n, o)];
    }
  }

  method AllDependenceNames(phase: Model) returns (dependences: set<string>)
    ensures dependences == set n, m | n in phase && m in DependenceNames(phase[n]) :: m
  {
    dependences := {};
    var left := phase.Keys;
    while left != {}
      invariant left <= phase.Keys
      invariant dependences == set n, m | n in phase.Keys - left && m in DependenceNames(phase[n]) :: m
      decreases |left|
    {
      var n :| n in left;
      left := left - {n};
      dependences := dependences + DependenceNames(phase[n]);
    }
  }

  /** `res` lists once each the outputs of the components no input of the phase refers to; `from` says which. */
  ghost predicate ListsRun<V>(res: seq<V>, from: seq<(string, string)>, phase: Model,
                              created: map<string, map<string, V>>)
    requires phase.Keys <= created.Keys
  {
    && |res| == |from|
    && (forall i, j :: 0 <= i < j < |from| ==> from[i] != from[j])
    && (forall p :: p in from <==> IsRun(phase, p.0) && p.1 in created[p.0])
    && (forall i :: 0 <= i < |res| ==> from[i] in from && res[i] == created[from[i].0][from[i].1])
  }

  lemma SinksListed<V>(res: seq<V>, from: seq<(string, string)>, phase: Model, created: map<string, map<string, V>>)
    requires phase.Keys <= created.Keys && ListsOutputs(res, from, created, Sinks(phase))
    ensures ListsRun(res, from, phase, created)
  {
    hide Sinks, IsRun;
    forall n ensures n in Sinks(phase) <==> IsRun(phase, n) { SinksIff(phase, n); }
    forall n | IsRun(phase, n) ensures n in phase { RunIsInPhase(phase, n); }
  }

  lemma RunIsInPhase(phase: Model, n: string)
    requires IsRun(phase, n)
    ensures n in phase
  {
  }

  method GetComponentsToRun<V>(phase: Model, created: map<string, map<string, V>>)
    returns (res: seq<V>)
    requires phase.Keys <= created.Keys
    ensures exists from :: ListsRun(res, from, phase, created)
  {
    var dependences := AllDependenceNames(phase);
    var toRun := phase.Keys - dependences;
    res := [];
    ghost var from: seq<(string, string)> := [];
    while toRun != {}
      invariant toRun <= Sinks(phase)
      invariant ListsOutputs(res, from, created, Sinks(phase) - toRun)
      decreases |toRun|
    {
      var n :| n in toRun;
      assert Sinks(phase) - toRun + {n} == Sinks(phase) - (toRun - {n});
      ghost var done := Sinks(phase) - toRun;
      ghost var more;
      toRun := toRun - {n};
      var outputs;
      outputs, more := OutputsOf(n, created);
      ListsBoth(res, from, done, outputs, more, {n}, created);
      res, from := res + outputs, from + more;
    }
    assert Sinks(phase) - {} == Sinks(phase);
    SinksListed(res, from, phase, created);
  }

  /** A phase with components, each with an output, always has something to run. */
  lemma SomethingRuns<V>(phase: Model, rank: map<string, nat>, created: map<string, map<string, V>>)
    requires Acyclic(phase, rank) && phase.Keys <= created.Keys && phase != map[]
    requires forall n :: n in phase ==> created[n] != map[]
    ensures exists n, o :: IsRun(phase, n) && o in created[n]
  {
    var c :| c in phase;
    var path := RunsReachAll(phase, rank, c);
    var n := path[0];
    var o :| o in created[n];
  }
}
