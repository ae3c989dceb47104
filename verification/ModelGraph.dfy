/** Building the components of a model from its dependency graph.

    A model maps component names to items; an item's inputs refer to outputs of other components.
    What a component's `init` computes is the parameter `init`: a function of its name, item and
    resolved inputs, which may also fail. The builder walks the list of pending names round and
    round, creating whatever is ready; after each removal its index skips one name. */
module ModelGraph {
  import opened Common

  /** `ref` is the `object.variable` string of the model file, already split. */
  datatype Ref = Ref(obj: string, out: string)
  datatype Input = Input(name: string, ref: Ref, important: bool)
  datatype Item = Item(cls: string, version: string, inputs: seq<Input>)

  type Model = map<string, Item>
  type Init<!V> = (string, Item, map<string, V>) -> Option<map<string, V>>

  datatype Verdict = Go | Wait | Raise

  /** `check_dependences`: the first important input that is not satisfied decides. */
  function Probe<V>(inputs: seq<Input>, created: map<string, map<string, V>>): Verdict {
    if inputs == [] then Go
    else
      var ref := inputs[0].ref;
      if !inputs[0].important then Probe(inputs[1..], created)
      else if ref.obj !in created then Wait
      else if ref.out !in created[ref.obj] then Raise
      else Probe(inputs[1..], created)
  }

  /** `set_inputs`: bind every input whose object exists by now; a missing variable raises. */
  function Bind<V>(inputs: seq<Input>, created: map<string, map<string, V>>, bound: map<string, V>)
    : Option<map<string, V>>
  {
    if inputs == [] then Some(bound)
    else
      var ref := inputs[0].ref;
      if ref.obj !in created then Bind(inputs[1..], created, bound)
      else if ref.out !in created[ref.obj] then None
      else Bind(inputs[1..], created, bound[inputs[0].name := created[ref.obj][ref.out]])
  }

  datatype Builder<V> = Builder(pending: seq<string>, i: nat, created: map<string, map<string, V>>, failed: bool)

  predicate Stopped<V>(b: Builder<V>) {
    b.failed || b.pending == []
  }

  function Begin<V>(keys: seq<string>): Builder<V> {
    Builder(keys, 0, map[], false)
  }

  function NextIndex(i: nat, len: nat): nat {
    if i < len - 1 then i + 1 else 0
  }

  ghost predicate Distinct(names: seq<string>) {
    forall i, j :: 0 <= i < j < |names| ==> names[i] != names[j]
  }

  /** What every iteration keeps: the index is in range, and every name is pending or created, not both. */
  ghost predicate Sound<V>(g: Model, b: Builder<V>) {
    && Distinct(b.pending)
    && (b.pending != [] ==> b.i < |b.pending|)
    && (forall n :: n in b.pending ==> n in g && n !in b.created)
    && (forall n :: n in g ==> n in b.pending || n in b.created)
    && (forall n :: n in b.created ==> n in g)
  }

  /** One iteration of the loop. */
  function Step<V>(g: Model, init: Init<V>, b: Builder<V>): Builder<V> {
    if b.i >= |b.pending| || b.pending[b.i] !in g then b.(failed := true) else
    var name := b.pending[b.i];
    match Probe(g[name].inputs, b.created)
    case Raise => b.(failed := true)
    case Wait => b.(i := NextIndex(b.i, |b.pending|))
    case Go =>
      match Bind(g[name].inputs, b.created, map[])
      case None => b.(failed := true)
      case Some(bound) =>
        match init(name, g[name], bound)
        case None => b.(failed := true)
        case Some(out) =>
          Builder(Without(b.pending, b.i), NextIndex(b.i, |b.pending| - 1), b.created[name := out], false)
  }

  // ---- What probing, binding and stepping mean ----

  /** The important inputs before the `k`th find their objects created, with the variables they name. */
  predicate SatisfiedBefore<V>(inputs: seq<Input>, created: map<string, map<string, V>>, k: nat) {
    forall i :: 0 <= i < k && i < |inputs| && inputs[i].important ==>
      inputs[i].ref.obj in created && inputs[i].ref.out in created[inputs[i].ref.obj]
  }

  lemma SatisfiedTail<V>(inputs: seq<Input>, created: map<string, map<string, V>>, k: nat)
    requires inputs != [] && k > 0
    ensures SatisfiedBefore(inputs, created, k) <==>
              SatisfiedBefore([inputs[0]], created, 1) && SatisfiedBefore(inputs[1..], created, k - 1)
  {
    if SatisfiedBefore(inputs, created, k) {
      assert forall i :: 0 <= i < |inputs| - 1 ==> inputs[1..][i] == inputs[i + 1];
    }
    if SatisfiedBefore([inputs[0]], created, 1) && SatisfiedBefore(inputs[1..], created, k - 1) {
      forall i | 0 <= i < k && i < |inputs| && inputs[i].important
        ensures inputs[i].ref.obj in created && inputs[i].ref.out in created[inputs[i].ref.obj]
      {
        if i == 0 { assert [inputs[0]][0] == inputs[i]; } else { assert inputs[1..][i - 1] == inputs[i]; }
      }
    }
  }

  /** A component may be created if all its important inputs are satisfied. Otherwise the first that is not decides:
      it has to wait for a missing object, and a missing variable of a created one raises. */
  lemma {:induction false} ProbeIff<V>(inputs: seq<Input>, created: map<string, map<string, V>>) returns (k: nat)
    ensures k <= |inputs| && SatisfiedBefore(inputs, created, k)
    ensures k == |inputs| <==> Probe(inputs, created).Go?
    ensures k < |inputs| ==> inputs[k].important
    ensures k < |inputs| ==> (Probe(inputs, created).Wait? <==> inputs[k].ref.obj !in created)
    ensures k < |inputs| ==> (Probe(inputs, created).Raise? <==>
              inputs[k].ref.obj in created && inputs[k].ref.out !in created[inputs[k].ref.obj])
  {
    if inputs == [] {
      k := 0;
    } else if SatisfiedBefore([inputs[0]], created, 1) {
      assert [inputs[0]][0] == inputs[0];
      k := ProbeIff(inputs[1..], created);
      k := k + 1;
      SatisfiedTail(inputs, created, k);
    } else {
      k := 0;
    }
  }

  /** No input from the `k`th on has this name and a created object. */
  predicate NoneFrom<V>(inputs: seq<Input>, created: map<string, map<string, V>>, k: nat, name: string) {
    forall i :: k <= i < |inputs| && inputs[i].name == name ==> inputs[i].ref.obj !in created
  }

  predicate AllThere<V>(inputs: seq<Input>, created: map<string, map<string, V>>) {
    forall i :: 0 <= i < |inputs| && inputs[i].ref.obj in created ==> inputs[i].ref.out in created[inputs[i].ref.obj]
  }

  lemma AllThereTail<V>(inputs: seq<Input>, created: map<string, map<string, V>>)
    requires inputs != []
    ensures AllThere(inputs, created) <==> AllThere([inputs[0]], created) && AllThere(inputs[1..], created)
  {
    assert [inputs[0]] + inputs[1..] == inputs && [inputs[0]][0] == inputs[0];
    if AllThere([inputs[0]], created) && AllThere(inputs[1..], created) {
      forall i | 0 <= i < |inputs| && inputs[i].ref.obj in created
        ensures inputs[i].ref.out in created[inputs[i].ref.obj]
      {
        if i > 0 { assert inputs[1..][i - 1] == inputs[i]; }
      }
    }
  }

  /** Binding raises exactly if some created object lacks the variable named. Otherwise a name is bound to what the
      last of its inputs with a created object refers to, or keeps what it had. */
  lemma {:induction false} BindIff<V>(inputs: seq<Input>, created: map<string, map<string, V>>,
                                      bound: map<string, V>, name: string) returns (k: nat)
    ensures Bind(inputs, created, bound).Some? <==> AllThere(inputs, created)
    ensures k <= |inputs| && NoneFrom(inputs, created, if k < |inputs| then k + 1 else 0, name)
    ensures k < |inputs| ==> inputs[k].name == name && inputs[k].ref.obj in created
    ensures AllThere(inputs, created) ==>
              var r := Bind(inputs, created, bound).value;
              if k < |inputs| then name in r && r[name] == created[inputs[k].ref.obj][inputs[k].ref.out]
              else (name in r <==> name in bound) && (name in r ==> r[name] == bound[name])
    decreases |inputs|
  {
    if inputs == [] {
      k := 0;
    } else {
      var x, rest := inputs[0], inputs[1..];
      AllThereTail(inputs, created);
      assert [x][0] == x;
      var known := x.ref.obj in created;
      var bound' := if known && x.ref.out in created[x.ref.obj] then bound[x.name := created[x.ref.obj][x.ref.out]]
                    else bound;
      k := BindIff(rest, created, bound', name);
      if k < |rest| {
        k := k + 1;
      } else {
        k := if known && x.name == name then 0 else |inputs|;
      }
      assert forall i :: 1 <= i < |inputs| ==> inputs[i] == rest[i - 1];
    }
  }

  /** An iteration that creates something asks the component at the index, with its own name, item and bound inputs,
      and stores what it answers under that name. */
  lemma StepCreates<V>(g: Model, init: Init<V>, b: Builder<V>)
    requires Sound(g, b) && !Stopped(b) && !Step(g, init, b).failed && Step(g, init, b).pending != b.pending
    ensures var name, b' := b.pending[b.i], Step(g, init, b);
            && name in g && AllThere(g[name].inputs, b.created) && name !in b.created
            && b'.created.Keys == b.created.Keys + {name}
            && init(name, g[name], Bind(g[name].inputs, b.created, map[]).value) == Some(b'.created[name])
            && forall m :: m in b.created ==> b'.created[m] == b.created[m]
  {
    var name := b.pending[b.i];
    var k := BindIff(g[name].inputs, b.created, map[], "");
  }

  /** A failed probe moves on to the next name. After a creation the name that followed is skipped: the index moves on
      to the one after it, or to the front of the list if there is none. */
  lemma StepMovesOn<V>(g: Model, init: Init<V>, b: Builder<V>)
    requires Sound(g, b) && !Stopped(b) && !Stopped(Step(g, init, b))
    ensures var b', n := Step(g, init, b), |b.pending|;
            && b'.i < |b'.pending|
            && (b'.pending == b.pending ==>
                  b'.pending[b'.i] == b.pending[if b.i + 1 < n then b.i + 1 else 0])
            && (b'.pending != b.pending ==>
                  && b.pending[b.i] in b'.created && n >= 2
                  && b'.pending[b'.i] == (if b.i + 2 < n then b.pending[b.i + 2]
                                          else if b.i == 0 then b.pending[1] else b.pending[0]))
  {
    var b', n := Step(g, init, b), |b.pending|;
    StepSound(g, init, b);
  }

  lemma WithoutNames(names: seq<string>, i: nat)
    requires i < |names| && Distinct(names)
    ensures Distinct(Without(names, i))
    ensures forall n :: n in Without(names, i) <==> n in names && n != names[i]
  {
    var rest := Without(names, i);
    assert forall j :: 0 <= j < |rest| ==> rest[j] == names[if j < i then j else j + 1];
    forall n | n in names && n != names[i] ensures n in rest {
      var j :| 0 <= j < |names| && names[j] == n;
      assert rest[if j < i then j else j - 1] == n;
    }
  }

  lemma StepSound<V>(g: Model, init: Init<V>, b: Builder<V>)
    requires Sound(g, b) && !Stopped(b)
    ensures Sound(g, Step(g, init, b))
  {
    WithoutNames(b.pending, b.i);
  }

  function Iterate<V>(g: Model, init: Init<V>, b: Builder<V>, k: nat): Builder<V>
    decreases k
  {
    if k == 0 || Stopped(b) then b else Iterate(g, init, Step(g, init, b), k - 1)
  }

  lemma {:induction false} IterateSound<V>(g: Model, init: Init<V>, b: Builder<V>, k: nat)
    requires Sound(g, b)
    ensures Sound(g, Iterate(g, init, b, k))
    decreases k
  {
    if k > 0 && !Stopped(b) {
      StepSound(g, init, b);
      IterateSound(g, init, Step(g, init, b), k - 1);
    }
  }

  lemma {:induction false} IterateSplit<V>(g: Model, init: Init<V>, b: Builder<V>, j: nat, k: nat)
    ensures Iterate(g, init, b, j + k) == Iterate(g, init, Iterate(g, init, b, j), k)
    decreases j
  {
    if j > 0 && !Stopped(b) {
      IterateSplit(g, init, Step(g, init, b), j - 1, k);
    }
  }

  lemma StoppedStays<V>(g: Model, init: Init<V>, b: Builder<V>, j: nat, k: nat)
    requires j <= k && Stopped(Iterate(g, init, b, j))
    ensures Iterate(g, init, b, k) == Iterate(g, init, b, j)
  {
    IterateSplit(g, init, b, j, k - j);
  }

  // ---- The least set of names closed under readiness ----

  function Needs(item: Item): set<string> {
    set x | x in item.inputs && x.important :: x.ref.obj
  }

  ghost predicate Closed(g: Model, names: set<string>) {
    forall n :: n in g && Needs(g[n]) <= names ==> n in names
  }

  /** Everything in the model has to be in every closed set: no name waits on a cycle or on a missing name. */
  ghost predicate Grounded(g: Model) {
    forall names :: Closed(g, names) ==> g.Keys <= names
  }

  /** `rank` certifies that important inputs stay inside the model and never go in a circle. */
  ghost predicate Ranked(g: Model, rank: map<string, nat>) {
    forall n :: n in g ==> n in rank && forall m :: m in Needs(g[n]) ==> m in g && m in rank && rank[m] < rank[n]
  }

  lemma {:induction false} ProbeNeeds<V>(inputs: seq<Input>, created: map<string, map<string, V>>)
    ensures Probe(inputs, created).Go? ==> forall x :: x in inputs && x.important ==> x.ref.obj in created
    ensures Probe(inputs, created).Wait? ==> exists x :: x in inputs && x.important && x.ref.obj !in created
  {
    if inputs != [] {
      assert inputs[0] in inputs;
      ProbeNeeds(inputs[1..], created);
      assert inputs == [inputs[0]] + inputs[1..];
    }
  }

  /** Nothing outside a closed set is ever created. */
  lemma StepStaysInside<V>(g: Model, init: Init<V>, b: Builder<V>, names: set<string>)
    requires Sound(g, b) && !Stopped(b) && Closed(g, names) && b.created.Keys <= names
    ensures Step(g, init, b).created.Keys <= names
  {
    var n := b.pending[b.i];
    ProbeNeeds(g[n].inputs, b.created);
    if Probe(g[n].inputs, b.created).Go? {
      assert Needs(g[n]) <= names;
    }
  }

  lemma {:induction false} CreatedInside<V>(g: Model, init: Init<V>, b: Builder<V>, k: nat, names: set<string>)
    requires Sound(g, b) && Closed(g, names) && b.created.Keys <= names
    ensures Iterate(g, init, b, k).created.Keys <= names
    decreases k
  {
    if k > 0 && !Stopped(b) {
      StepSound(g, init, b);
      StepStaysInside(g, init, b, names);
      CreatedInside(g, init, Step(g, init, b), k - 1, names);
    }
  }

  ghost predicate AllWait<V>(g: Model, b: Builder<V>)
    requires Sound(g, b)
  {
    forall j :: 0 <= j < |b.pending| ==> Probe(g[b.pending[j]].inputs, b.created).Wait?
  }

  lemma AllWaitClosed<V>(g: Model, b: Builder<V>)
    requires Sound(g, b) && AllWait(g, b)
    ensures Closed(g, b.created.Keys)
  {
    forall n | n in g && Needs(g[n]) <= b.created.Keys ensures n in b.created {
      if n in b.pending {
        var j :| 0 <= j < |b.pending| && b.pending[j] == n;
        ProbeNeeds(g[n].inputs, b.created);
      }
    }
  }
}
