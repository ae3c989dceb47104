/** When the order of the keys in a model file matters: exactly if some optional input is not settled. */
module ModelOrder {
  import opened Common
  import opened ModelGraph
  import opened ModelBuild
  import opened ModelEval

  function Names(c: seq<string>): set<string> {
    set n | n in c
  }

  // ---- Any order of creation that respects the important inputs is reached from some order of the keys ----

  /** Each name of `c` is new and needs only names in `done` or before it. */
  ghost predicate Follows(g: Model, done: set<string>, c: seq<string>)
    decreases |c|
  {
    c == [] || (c[0] in g && c[0] !in done && Needs(g[c[0]]) <= done && Follows(g, done + {c[0]}, c[1..]))
  }

  /** The list of keys that the loop, now at index `i`, takes up in the order `c` in spite of its skips. */
  function Plan(i: nat, c: seq<string>): (keys: seq<string>)
    requires c == [] || i < |c|
    ensures |keys| == |c|
    decreases |c|
  {
    if c == [] then []
    else
      var rest := Plan(NextIndex(i, |c| - 1), c[1..]);
      rest[..i] + [c[0]] + rest[i..]
  }

  lemma {:induction false} PlanLists(i: nat, c: seq<string>)
    requires c == [] || i < |c|
    ensures multiset(Plan(i, c)) == multiset(c)
    decreases |c|
  {
    if c != [] {
      var rest := Plan(NextIndex(i, |c| - 1), c[1..]);
      PlanLists(NextIndex(i, |c| - 1), c[1..]);
      assert rest == rest[..i] + rest[i..] && c == [c[0]] + c[1..];
    }
  }

  lemma {:induction false} FollowsNew(g: Model, done: set<string>, c: seq<string>)
    requires Follows(g, done, c)
    ensures Names(c) !! done && Names(c) <= g.Keys && forall n :: multiset(c)[n] <= 1
    decreases |c|
  {
    if c != [] {
      FollowsNew(g, done + {c[0]}, c[1..]);
      assert c == [c[0]] + c[1..];
      assert c[0] !in Names(c[1..]);
    }
  }

  lemma OnceDistinct(keys: seq<string>)
    requires forall n :: multiset(keys)[n] <= 1
    ensures Distinct(keys)
  {
    forall i, j | 0 <= i < j < |keys| ensures keys[i] != keys[j] {
      assert keys == keys[..j] + keys[j..] && multiset(keys) == multiset(keys[..j]) + multiset(keys[j..]);
      assert keys[..j][i] == keys[i] && keys[j..][0] == keys[j];
      assert keys[i] in multiset(keys[..j]) && keys[j] in multiset(keys[j..]);
      assert multiset(keys)[keys[i]] == multiset(keys[..j])[keys[i]] + multiset(keys[j..])[keys[i]] <= 1;
    }
  }

  lemma PlanOf(g: Model, c: seq<string>)
    requires Follows(g, {}, c) && Names(c) == g.Keys
    ensures Lists(Plan(0, c), g)
  {
    FollowsNew(g, {}, c);
    PlanLists(0, c);
    OnceDistinct(Plan(0, c));
    forall n ensures n in Plan(0, c) <==> n in g {
      assert n in Plan(0, c) <==> n in multiset(Plan(0, c));
      assert n in c <==> n in multiset(c);
      assert n in c <==> n in Names(c);
    }
  }

  // ---- Components that tell whether an input of a given name was bound ----

  function Outs(g: Model): set<string> {
    set n, y | n in g && y in g[n].inputs :: y.ref.out
  }

  function Answer(outs: set<string>, v: nat): map<string, nat> {
    map o | o in outs :: v
  }

  /** Every component has the outputs `outs`, all 1 if its input `name` was bound and all 0 if not. */
  function Tell(outs: set<string>, name: string): Init<nat> {
    (n, item, bound) => Some(Answer(outs, if name in bound then 1 else 0))
  }

  ghost predicate AllOut(created: map<string, map<string, nat>>, outs: set<string>) {
    forall m :: m in created ==> created[m].Keys == outs
  }

  ghost predicate Hears(inputs: seq<Input>, name: string, objs: set<string>) {
    exists y :: y in inputs && y.name == name && y.ref.obj in objs
  }

  lemma {:induction false} Probes(inputs: seq<Input>, created: map<string, map<string, nat>>, outs: set<string>)
    requires AllOut(created, outs)
    requires forall y :: y in inputs ==> y.ref.out in outs && (y.important ==> y.ref.obj in created)
    ensures Probe(inputs, created).Go?
    decreases |inputs|
  {
    if inputs != [] {
      assert inputs[0] in inputs;
      Probes(inputs[1..], created, outs);
    }
  }

  lemma {:induction false} Binds(inputs: seq<Input>, created: map<string, map<string, nat>>, outs: set<string>,
                                 bound: map<string, nat>, name: string)
    requires AllOut(created, outs) && forall y :: y in inputs ==> y.ref.out in outs
    ensures var r := Bind(inputs, created, bound);
            r.Some? && (name in r.value <==> name in bound || Hears(inputs, name, created.Keys))
    decreases |inputs|
  {
    if inputs != [] {
      var x := inputs[0];
      assert x in inputs && inputs == [x] + inputs[1..];
      Binds(inputs[1..], created, outs,
            if x.ref.obj in created then bound[x.name := created[x.ref.obj][x.ref.out]] else bound, name);
      assert Hears(inputs, name, created.Keys) <==>
             (x.name == name && x.ref.obj in created) || Hears(inputs[1..], name, created.Keys);
    }
  }

  /** The names before `n` in `c`. */
  function Before(c: seq<string>, n: string): set<string> {
    if c == [] || c[0] == n then {} else {c[0]} + Before(c[1..], n)
  }

  lemma Create(g: Model, name: string, created: map<string, map<string, nat>>, c: seq<string>, i: nat)
    requires c != [] && i < |c| && Follows(g, created.Keys, c) && AllOut(created, Outs(g))
    ensures var heard := Hears(g[c[0]].inputs, name, created.Keys);
            Step(g, Tell(Outs(g), name), Builder(Plan(i, c), i, created, false)) ==
              Builder(Plan(NextIndex(i, |c| - 1), c[1..]), NextIndex(i, |c| - 1),
                      created[c[0] := Answer(Outs(g), if heard then 1 else 0)], false)
  {
    var rest, plan := Plan(NextIndex(i, |c| - 1), c[1..]), Plan(i, c);
    assert plan[i] == c[0] && Without(plan, i) == rest;
    var inputs := g[c[0]].inputs;
    forall y | y in inputs && y.important ensures y.ref.obj in created { assert y.ref.obj in Needs(g[c[0]]); }
    Probes(inputs, created, Outs(g));
    Binds(inputs, created, Outs(g), map[], name);
  }

  lemma CreateFirst(g: Model, name: string, created: map<string, map<string, nat>>, c: seq<string>, i: nat)
    returns (i': nat, created': map<string, map<string, nat>>)
    requires c != [] && i < |c| && Follows(g, created.Keys, c) && AllOut(created, Outs(g))
    ensures var heard := Hears(g[c[0]].inputs, name, created.Keys);
            && created' == created[c[0] := Answer(Outs(g), if heard then 1 else 0)]
            && created'.Keys == created.Keys + {c[0]} && AllOut(created', Outs(g)) && (c[1..] == [] || i' < |c| - 1)
            && Iterate(g, Tell(Outs(g), name), Builder(Plan(i, c), i, created, false), |c|) ==
                 Iterate(g, Tell(Outs(g), name), Builder(Plan(i', c[1..]), i', created', false), |c| - 1)
  {
    hide Step, Plan, Hears;
    i' := NextIndex(i, |c| - 1);
    Create(g, name, created, c, i);
    created' := created[c[0] := Answer(Outs(g), if Hears(g[c[0]].inputs, name, created.Keys) then 1 else 0)];
  }

  /** The loop creates the names in the order `c`, and each tells whether it heard. */
  lemma {:induction false} CreateAll(g: Model, name: string, created: map<string, map<string, nat>>, c: seq<string>,
                                     i: nat, n: string)
    requires (c == [] || i < |c|) && Follows(g, created.Keys, c) && AllOut(created, Outs(g))
    ensures var b := Iterate(g, Tell(Outs(g), name), Builder(Plan(i, c), i, created, false), |c|);
            && b.pending == [] && !b.failed
            && (n in created ==> n in b.created && b.created[n] == created[n])
            && (n !in created && n in c ==>
                  n in g && n in b.created &&
                  var heard := Hears(g[n].inputs, name, created.Keys + Before(c, n));
                  b.created[n] == Answer(Outs(g), if heard then 1 else 0))
    decreases |c|
  {
    hide Plan, Hears, Answer, AllOut, Tell;
    if c != [] {
      var i', created' := CreateFirst(g, name, created, c, i);
      hide Iterate;
      CreateAll(g, name, created', c[1..], i', n);
      if n == c[0] {
        assert created.Keys + Before(c, n) == created.Keys;
      } else {
        assert created.Keys + Before(c, n) == created'.Keys + Before(c[1..], n);
      }
    }
  }

  // ---- Two orders that differ ----

  ghost predicate DownClosed(g: Model, names: set<string>) {
    names <= g.Keys && forall n :: n in names ==> Needs(g[n]) <= names
  }

  lemma {:induction false} FindReady(g: Model, rank: map<string, nat>, done: set<string>, all: set<string>, n: string)
    returns (r: string)
    requires Ranked(g, rank) && DownClosed(g, all) && n in all - done
    ensures r in all - done && r in g && Needs(g[r]) <= done
    decreases rank[n]
  {
    if Needs(g[n]) <= done {
      r := n;
    } else {
      var p :| p in Needs(g[n]) && p !in done;
      r := FindReady(g, rank, done, all, p);
    }
  }

  lemma {:induction false} Enumerate(g: Model, rank: map<string, nat>, done: set<string>, all: set<string>)
    returns (c: seq<string>)
    requires Ranked(g, rank) && DownClosed(g, all) && done <= all
    ensures Follows(g, done, c) && Names(c) == all - done
    decreases |all - done|
  {
    hide Ranked, DownClosed, Needs;
    if all - done == {} {
      c := [];
    } else {
      var n :| n in all - done;
      var r := FindReady(g, rank, done, all, n);
      assert all - (done + {r}) == all - done - {r};
      var rest := Enumerate(g, rank, done + {r}, all);
      c := [r] + rest;
      assert c[1..] == rest && Names(c) == {r} + Names(rest);
    }
  }

  lemma {:induction false} FollowsAppend(g: Model, done: set<string>, a: seq<string>, b: seq<string>)
    requires Follows(g, done, a) && Follows(g, done + Names(a), b)
    ensures Follows(g, done, a + b)
    decreases |a|
  {
    if a == [] {
      assert a + b == b && done + Names(a) == done;
    } else {
      assert done + {a[0]} + Names(a[1..]) == done + Names(a);
      FollowsAppend(g, done + {a[0]}, a[1..], b);
      assert (a + b)[1..] == a[1..] + b;
    }
  }

  lemma {:induction false} BeforeAppend(a: seq<string>, b: seq<string>, n: string)
    ensures n in a ==> Before(a + b, n) <= Names(a)
    ensures n !in a ==> Names(a) <= Before(a + b, n)
    decreases |a|
  {
    if a != [] {
      assert (a + b)[1..] == a[1..] + b && Names(a) == {a[0]} + Names(a[1..]);
      BeforeAppend(a[1..], b, n);
    }
  }

  /** `n` and everything it importantly needs. */
  ghost function Closure(g: Model, n: string): set<string> {
    set m | m in g && (m == n || Needed(g, n, m))
  }

  lemma NeededStep(g: Model, n: string, m: string, p: string)
    requires Needed(g, n, m) && m in g && p in Needs(g[m])
    ensures Needed(g, n, p)
  {
    var chain :| IsChain(g, chain) && chain[0] == n && chain[|chain| - 1] == m;
    var longer := chain + [p];
    assert IsChain(g, longer) && longer[0] == n && longer[|longer| - 1] == p;
  }

  lemma ClosureDown(g: Model, rank: map<string, nat>, n: string)
    requires Ranked(g, rank) && n in g
    ensures DownClosed(g, Closure(g, n)) && DownClosed(g, g.Keys)
  {
    forall m, p | m in Closure(g, n) && p in Needs(g[m]) ensures p in Closure(g, n) {
      if m == n { NeededMore(g, n, p, p); } else { NeededStep(g, n, m, p); }
    }
  }

  /** An order of the keys from which everything `first` needs, and `first`, is created before the rest. */
  lemma PutFirst(g: Model, rank: map<string, nat>, first: string, n: string) returns (c: seq<string>)
    requires Ranked(g, rank) && first in g && n in g
    ensures Follows(g, {}, c) && Names(c) == g.Keys
    ensures n in Closure(g, first) ==> Before(c, n) <= Closure(g, first)
    ensures n !in Closure(g, first) ==> first in Before(c, n)
  {
    ClosureDown(g, rank, first);
    var a := Enumerate(g, rank, {}, Closure(g, first));
    var b := Enumerate(g, rank, Closure(g, first), g.Keys);
    assert {} + Names(a) == Closure(g, first);
    FollowsAppend(g, {}, a, b);
    BeforeAppend(a, b, n);
    c := a + b;
    assert Names(c) == Names(a) + Names(b);
  }

  /** No two inputs of a component share a name. */
  ghost predicate NamesApart(g: Model) {
    forall n, x, y :: n in g && x in g[n].inputs && y in g[n].inputs && x.name == y.name ==> x == y
  }

  lemma AtEnd(g: Model, init: Init<nat>, keys: seq<string>)
    requires Stopped(Iterate(g, init, Begin(keys), |keys|))
    ensures Built(g, init, keys) == Iterate(g, init, Begin(keys), |keys|)
  {
    TriangleFormula(|keys|);
    StoppedStays(g, init, Begin(keys), |keys|, Triangle(|keys|));
  }

  lemma Finishes(g: Model, name: string, c: seq<string>, n: string)
    requires Follows(g, {}, c) && Names(c) == g.Keys && n in g
    ensures var b := Built(g, Tell(Outs(g), name), Plan(0, c));
            && Lists(Plan(0, c), g) && !b.failed && n in b.created
            && b.created[n] == Answer(Outs(g), if Hears(g[n].inputs, name, Before(c, n)) then 1 else 0)
  {
    hide Iterate, Plan, Hears, Answer, Before, Follows, Outs, Tell;
    assert Follows(g, {}, c);
    PlanOf(g, c);
    assert n in Names(c);
    var none: map<string, map<string, nat>> := map[];
    assert none.Keys == {};
    CreateAll(g, name, none, c, 0, n);
    assert {} + Before(c, n) == Before(c, n);
    AtEnd(g, Tell(Outs(g), name), Plan(0, c));
  }

  /** One optional input that is not settled is enough: some components, and two orders of the keys, for which the
      build succeeds with different outputs. */
  lemma UnsettledMatters(g: Model, rank: map<string, nat>, n: string, x: Input)
    returns (keys: seq<string>, keys': seq<string>)
    requires Ranked(g, rank) && NamesApart(g) && n in g && x in g[n].inputs && !x.important
    requires !Fixed(g, n, x.ref.obj)
    ensures Lists(keys, g) && Lists(keys', g) && !SameBuild(g, Tell(Outs(g), x.name), keys, keys')
  {
    var o := x.ref.obj;
    var c := PutFirst(g, rank, o, n);
    var c' := PutFirst(g, rank, n, n);
    keys, keys' := Plan(0, c), Plan(0, c');
    Finishes(g, x.name, c, n);
    Finishes(g, x.name, c', n);
    assert o in Before(c, n) && Hears(g[n].inputs, x.name, Before(c, n));
    assert o !in Before(c', n) && !Hears(g[n].inputs, x.name, Before(c', n));
    assert x.ref.out in Outs(g) && Answer(Outs(g), 1)[x.ref.out] != Answer(Outs(g), 0)[x.ref.out];
  }

  /** Whatever the components compute, the order of the keys is irrelevant, if and only if the optional inputs are
      settled. */
  lemma OrderIrrelevantIff(g: Model, rank: map<string, nat>)
    requires Ranked(g, rank) && NamesApart(g)
    ensures Settled(g) <==> forall init: Init<nat>, keys, keys' ::
              Lists(keys, g) && Lists(keys', g) ==> SameBuild(g, init, keys, keys')
  {
    if Settled(g) {
      forall init: Init<nat>, keys, keys' | Lists(keys, g) && Lists(keys', g) ensures SameBuild(g, init, keys, keys') {
        KeyOrderIrrelevant(g, init, rank, keys, keys');
      }
    } else {
      var n, x :| n in g && x in g[n].inputs && !x.important && !Fixed(g, n, x.ref.obj);
      var keys, keys' := UnsettledMatters(g, rank, n, x);
    }
  }

  // ---- The smallest model whose order matters ----

  const OPTIONAL := map[
    "a" := Item("A", "1", []),
    "b" := Item("B", "1", [Input("x", Ref("a", "out"), false)])
  ]

  lemma NothingNeeded(n: string, m: string)
    ensures !Needed(OPTIONAL, n, m)
  {
    if Needed(OPTIONAL, n, m) { var p := NeededFirst(OPTIONAL, n, m); }
  }

  /** Component `b` has an optional input from `a`. Some components give different outputs when the keys are listed in
      the two orders. */
  lemma OptionalMatters() returns (keys: seq<string>, keys': seq<string>)
    ensures Lists(keys, OPTIONAL) && Lists(keys', OPTIONAL)
    ensures !SameBuild(OPTIONAL, Tell(Outs(OPTIONAL), "x"), keys, keys')
  {
    var x := Input("x", Ref("a", "out"), false);
    assert OPTIONAL["b"].inputs == [x] && x in OPTIONAL["b"].inputs;
    NothingNeeded("b", "a");
    NothingNeeded("a", "b");
    keys, keys' := UnsettledMatters(OPTIONAL, map["a" := 0, "b" := 0], "b", x);
  }
}
