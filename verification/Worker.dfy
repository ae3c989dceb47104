/** The worker thread's loop, step by step, against producers and one stopper.

    The queue's operations are atomic (each holds the queue's mutex), and so are loads and stores of the running
    flag. Runs start once the worker has set that flag. */
module Worker {
  import opened Common

  type Task = nat

  datatype Pc =
    | Check
    | AtWait
    | Looping | Executing(task: Task)
    | DrainTest | DrainPop | DrainRun(task: Task)
    | Leaving | Done
    | Thrown

  datatype Stopper = NotCalled | FlagStored | Returned

  /** `pushed` lists the tasks ever enqueued, `executed` those whose run has finished, and `early` counts the
      tasks enqueued before the stopper cleared the flag, and `late` those enqueued once the worker had seen its queue
      empty for the last time. */
  datatype State = State(running: bool, queue: seq<Option<Task>>, batch: seq<Option<Task>>, pc: Pc,
                         stopper: Stopper, executed: seq<Task>, pushed: seq<Task>, early: nat, late: nat)

  const STARTED := State(true, [], [], Check, NotCalled, [], [], 0, 0)

  datatype Event = Push(item: Option<Task>) | StopFlag | StopPush | Work

  /** The worker will not look at its queue again. */
  predicate Ending(pc: Pc) {
    pc.Leaving? || pc.Done?
  }

  predicate Enabled(s: State, e: Event) {
    match e
    case Push(_) => true
    case StopFlag => s.stopper.NotCalled?
    case StopPush => s.stopper.FlagStored?
    case Work => !s.pc.Done? && !s.pc.Thrown? && (s.pc.AtWait? ==> s.queue != [])
  }

  /** One step of the worker. A null task is skipped. */
  function WorkStep(s: State): State
    requires Enabled(s, Work)
  {
    match s.pc
    case Check => s.(pc := if s.running then AtWait else DrainTest)
    case AtWait => s.(batch := s.queue, queue := [], pc := Looping)
    case Looping =>
      if s.batch == [] then s.(pc := Check)
      else s.(batch := s.batch[1..], pc := if s.batch[0].Some? then Executing(s.batch[0].value) else Looping)
    case Executing(t) => s.(executed := s.executed + [t], pc := Looping)
    case DrainTest => s.(pc := if s.queue == [] then Leaving else DrainPop)
    case DrainPop =>
      if s.queue == [] then s.(pc := Thrown)
      else s.(queue := s.queue[1..], pc := if s.queue[0].Some? then DrainRun(s.queue[0].value) else DrainTest)
    case DrainRun(t) => s.(executed := s.executed + [t], pc := DrainTest)
    case Leaving => s.(running := false, pc := Done)
  }

  function Step(s: State, e: Event): State
    requires Enabled(s, e)
  {
    match e
    case Push(item) =>
      s.(queue := s.queue + [item], pushed := s.pushed + (if item.Some? then [item.value] else []),
         late := s.late + if item.Some? && Ending(s.pc) then 1 else 0)
    case StopFlag => s.(running := false, stopper := FlagStored, early := |s.pushed|)
    case StopPush => s.(queue := s.queue + [None], stopper := Returned)
    case Work => WorkStep(s)
  }

  function Tasks(items: seq<Option<Task>>): seq<Task> {
    if items == [] then []
    else (if items[0].Some? then [items[0].value] else []) + Tasks(items[1..])
  }

  function Current(pc: Pc): seq<Task> {
    match pc
    case Executing(t) => [t]
    case DrainRun(t) => [t]
    case _ => []
  }

  predicate Draining(pc: Pc) {
    pc.DrainTest? || pc.DrainPop? || pc.DrainRun? || pc.Leaving? || pc.Done?
  }

  /** Executed, then running, then batch, then queue: the tasks in the order they were pushed. */
  predicate InOrder(s: State) {
    s.executed + Current(s.pc) + Tasks(s.batch) + Tasks(s.queue) == s.pushed
  }

  predicate Inv(s: State) {
    && InOrder(s)
    && s.early <= |s.pushed|
    && !s.pc.Thrown? && (s.pc.DrainPop? ==> s.queue != [])
    && (s.running <==> s.stopper.NotCalled?)
    && (Draining(s.pc) ==> !s.running && s.batch == [])
    && (s.pc.Check? || s.pc.AtWait? ==> s.batch == [])
    && (s.pc.AtWait? && s.stopper.Returned? ==> None in s.queue)
    && (Ending(s.pc) ==> s.early <= |s.executed|)
    && s.late == (if Ending(s.pc) then |Tasks(s.queue)| else 0)
  }

  lemma {:induction false} TasksAppend(a: seq<Option<Task>>, b: seq<Option<Task>>)
    ensures Tasks(a + b) == Tasks(a) + Tasks(b)
    decreases |a|
  {
    if a == [] {
      assert a + b == b && [] + Tasks(b) == Tasks(b);
    } else {
      TasksAppend(a[1..], b);
      assert (a + b)[0] == a[0] && (a + b)[1..] == a[1..] + b;
      Cat(if a[0].Some? then [a[0].value] else [], Tasks(a[1..]), Tasks(b));
    }
  }

  lemma TasksOne(item: Option<Task>)
    ensures Tasks([item]) == if item.Some? then [item.value] else []
  {
    assert [item][1..] == [];
  }

  lemma TasksNext(items: seq<Option<Task>>)
    requires items != []
    ensures Tasks(items) == (if items[0].Some? then [items[0].value] else []) + Tasks(items[1..])
  {
  }

  /** The same tasks in the same order, however the worker's parts are cut. */
  lemma Recut(e: seq<Task>, c: seq<Task>, b: seq<Task>, q: seq<Task>)
    ensures e + [] + (c + b) + q == e + c + b + q
    ensures (e + c) + [] + b + q == e + c + b + q
    ensures e + [] + [] + (c + q) == e + c + [] + q
    ensures e + [] + [] + q == e + [] + q + []
    ensures (e + c) + [] + [] + q == e + c + [] + q
  {
  }

  lemma WorkInOrder(s: State)
    requires Inv(s) && Enabled(s, Work)
    ensures InOrder(WorkStep(s))
  {
    match s.pc
    case AtWait => Recut(s.executed, [], [], Tasks(s.queue));
    case Looping =>
      if s.batch != [] {
        TasksNext(s.batch);
        Recut(s.executed, Current(WorkStep(s).pc), Tasks(s.batch[1..]), Tasks(s.queue));
      }
    case Executing(t) => Recut(s.executed, [t], Tasks(s.batch), Tasks(s.queue));
    case DrainPop =>
      TasksNext(s.queue);
      Recut(s.executed, Current(WorkStep(s).pc), [], Tasks(s.queue[1..]));
    case DrainRun(t) => Recut(s.executed, [t], [], Tasks(s.queue));
    case _ =>
  }

  lemma {:induction false} WorkKeepsInv(s: State)
    requires Inv(s) && Enabled(s, Work)
    ensures Inv(WorkStep(s))
  {
    WorkInOrder(s);
    if s.pc.DrainTest? && s.queue == [] {
      assert s.executed + [] + [] + [] == s.executed;
    }
  }

  lemma AddKeepsOrder(s: State, item: Option<Task>)
    requires InOrder(s)
    ensures s.executed + Current(s.pc) + Tasks(s.batch) + Tasks(s.queue + [item]) ==
            s.pushed + if item.Some? then [item.value] else []
  {
    TasksAppend(s.queue, [item]);
    TasksOne(item);
  }

  lemma StepKeepsInv(s: State, e: Event)
    requires Inv(s) && Enabled(s, e)
    ensures Inv(Step(s, e))
  {
    match e
    case Push(item) => AddKeepsOrder(s, item);
    case StopFlag =>
    case StopPush =>
      AddKeepsOrder(s, None);
      assert s.pushed + [] == s.pushed;
    case Work => WorkKeepsInv(s);
  }

  predicate Legal(s: State, run: seq<Event>)
    decreases |run|
  {
    run == [] || (Enabled(s, run[0]) && Legal(Step(s, run[0]), run[1..]))
  }

  function Final(s: State, run: seq<Event>): State
    requires Legal(s, run)
    decreases |run|
  {
    if run == [] then s else Final(Step(s, run[0]), run[1..])
  }

  lemma {:induction false} RunKeepsInv(s: State, run: seq<Event>)
    requires Inv(s) && Legal(s, run)
    ensures Inv(Final(s, run))
    decreases |run|
  {
    if run != [] {
      StepKeepsInv(s, run[0]);
      RunKeepsInv(Step(s, run[0]), run[1..]);
    }
  }

  /** Whatever the interleaving: tasks run once each, in push order; the drain never pops an empty queue; after
      `Stop` has returned the worker is never left waiting; until then it runs every task within a bounded number of its
      steps; and a worker that has finished has run every task pushed
      before `Stop` cleared the flag, and indeed every task but the `late` ones, which are the last. */
  lemma WorkerIsFifo(run: seq<Event>)
    requires Legal(STARTED, run)
    ensures var s := Final(STARTED, run);
            && s.executed + Current(s.pc) + Tasks(s.batch) + Tasks(s.queue) == s.pushed
            && !s.pc.Thrown?
            && (s.stopper.Returned? && !s.pc.Done? ==> Enabled(s, Work))
            && (s.running ==> WorkFor(s, 2 * (|s.queue| + |s.batch|) + 6).executed == s.pushed)
            && (s.pc.Done? ==> s.early <= |s.executed| && s.late <= |s.pushed|
                               && s.executed == s.pushed[..|s.pushed| - s.late])
  {
    RunKeepsInv(STARTED, run);
    var s := Final(STARTED, run);
    if s.running { RunningWorkerRunsAll(s); }
    if s.pc.Done? { assert s.executed + [] + [] + Tasks(s.queue) == s.executed + Tasks(s.queue); }
  }

  // ---- A running worker works ----

  function WorkFor(s: State, k: nat): State
    decreases k
  {
    if k == 0 || !Enabled(s, Work) then s else WorkFor(WorkStep(s), k - 1)
  }

  /** The worker waits, and there is nothing to do. */
  predicate AtRest(s: State) {
    s.running && s.pc.AtWait? && s.queue == []
  }

  /** An upper bound on a running worker's steps until it waits on an empty queue, if nothing more is pushed. */
  function StepsToRest(s: State): nat {
    var later := if s.queue == [] then 0 else 2 * |s.queue| + 3;
    match s.pc
    case AtWait => later
    case Check => later + 1
    case Looping => later + 2 * |s.batch| + 2
    case Executing(_) => later + 2 * |s.batch| + 3
    case _ => 0
  }

  lemma RunningComesCloser(s: State)
    requires Inv(s) && s.running && !AtRest(s)
    ensures Enabled(s, Work) && StepsToRest(WorkStep(s)) < StepsToRest(s)
    ensures WorkStep(s).running && WorkStep(s).pushed == s.pushed
  {
  }

  lemma {:induction false} WorksToRest(s: State, k: nat)
    requires Inv(s) && s.running && k >= StepsToRest(s)
    ensures AtRest(WorkFor(s, k)) && WorkFor(s, k).executed == s.pushed
    decreases k
  {
    if AtRest(s) {
      assert s.executed + [] + [] + [] == s.executed;
    } else {
      RunningComesCloser(s);
      WorkKeepsInv(s);
      WorksToRest(WorkStep(s), k - 1);
    }
  }

  /** While it is not stopped, the worker gets to everything: within a number of steps linear in the tasks it has, it
      has run every task ever pushed and waits for more. */
  lemma RunningWorkerRunsAll(s: State)
    requires Inv(s) && s.running
    ensures var end := WorkFor(s, 2 * (|s.queue| + |s.batch|) + 6);
            end.running && end.pc.AtWait? && end.queue == [] && end.executed == s.pushed
  {
    WorksToRest(s, 2 * (|s.queue| + |s.batch|) + 6);
  }

  // ---- Stopping terminates ----

  /** An upper bound on the worker's steps to its end, once the flag is cleared and nothing more is pushed. */
  function StepsLeft(s: State): nat {
    3 * (|s.queue| + |s.batch|) +
    match s.pc
    case Check => 3
    case AtWait => 5
    case Looping => 4
    case Executing(_) => 5
    case DrainTest => 2
    case DrainPop => 1
    case DrainRun(_) => 3
    case Leaving => 1
    case Done => 0
    case Thrown => 0
  }

  lemma WorkComesCloser(s: State)
    requires Inv(s) && Enabled(s, Work) && !s.running
    ensures StepsLeft(WorkStep(s)) < StepsLeft(s)
    ensures WorkStep(s).stopper == s.stopper && WorkStep(s).pushed == s.pushed
    ensures WorkStep(s).pc.Leaving? || WorkStep(s).pc.Done? ==> WorkStep(s).queue == s.queue
    ensures WorkStep(s).pc.Leaving? ==> s.queue == []
    ensures WorkStep(s).pc.Done? ==> s.pc.Leaving?
  {
  }

  /** After `Stop` has returned, if no task pushes another, the worker ends within `StepsLeft` steps and has run
      everything that was ever pushed. */
  lemma {:induction false} StopTerminates(s: State)
    requires Inv(s) && s.stopper.Returned? && (s.pc.Leaving? || s.pc.Done? ==> s.queue == [])
    ensures var end := WorkFor(s, StepsLeft(s)); end.pc.Done? && end.executed == s.pushed
    decreases StepsLeft(s)
  {
    if s.pc.Done? {
      assert s.executed + [] + [] + [] == s.executed;
    } else {
      var s' := WorkStep(s);
      WorkComesCloser(s);
      WorkKeepsInv(s);
      StopTerminates(s');
      WorkForMore(s', StepsLeft(s'), StepsLeft(s) - 1);
    }
  }

  lemma {:induction false} WorkForMore(s: State, k: nat, n: nat)
    requires k <= n && WorkFor(s, k).pc.Done?
    ensures WorkFor(s, n) == WorkFor(s, k)
    decreases k
  {
    if k > 0 && Enabled(s, Work) { WorkForMore(WorkStep(s), k - 1, n - 1); }
  }

  // ---- Which tasks are lost ----

  lemma {:induction false} EndingRunsNothing(s: State, run: seq<Event>)
    requires Legal(s, run) && Ending(s.pc)
    ensures Ending(Final(s, run).pc) && Final(s, run).executed == s.executed
    decreases |run|
  {
    if run != [] { EndingRunsNothing(Step(s, run[0]), run[1..]); }
  }

  lemma {:induction false} PushedStays(s: State, run: seq<Event>)
    requires Legal(s, run)
    ensures s.pushed <= Final(s, run).pushed
    ensures Final(s, run).late - s.late <= |Final(s, run).pushed| - |s.pushed|
    decreases |run|
  {
    if run != [] { PushedStays(Step(s, run[0]), run[1..]); }
  }

  /** Exactly the tasks pushed once the worker is leaving or has left are lost. A task pushed earlier has been run, in
      its place, when the worker has ended; a later one is not run however the run goes on. */
  lemma PushIsLostIff(before: seq<Event>, t: Task, after: seq<Event>)
    requires Legal(STARTED, before) && Legal(Step(Final(STARTED, before), Push(Some(t))), after)
    ensures var s := Final(STARTED, before);
            var end := Final(Step(s, Push(Some(t))), after);
            && |s.pushed| < |end.pushed| && end.pushed[|s.pushed|] == t
            && end.executed <= end.pushed
            && (Ending(s.pc) ==> |end.executed| <= |s.pushed|)
            && (end.pc.Done? ==> (|s.pushed| < |end.executed| <==> !Ending(s.pc)))
  {
    var s := Final(STARTED, before);
    var s' := Step(s, Push(Some(t)));
    var end := Final(s', after);
    RunKeepsInv(STARTED, before);
    StepKeepsInv(s, Push(Some(t)));
    RunKeepsInv(s', after);
    PushedStays(s', after);
    if Ending(s.pc) { EndingRunsNothing(s', after); }
  }

  /** A task pushed after the worker has seen its queue empty for the last time is never run. */
  lemma LatePushIsLost()
    ensures var run := [StopFlag, StopPush, Work, Work, Work, Work, Push(Some(7)), Work];
            Legal(STARTED, run) && Final(STARTED, run).pc.Done? && Final(STARTED, run).executed == []
            && Final(STARTED, run).pushed == [7]
  {
    var s := State(false, [], [], Leaving, Returned, [], [], 0, 0);
    assert Legal(s, [Push(Some(7)), Work]) by { assert [Push(Some(7)), Work][1..] == [Work] && [Work][1..] == []; }
  }
}
