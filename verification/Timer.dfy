/** The deferred-task list and the timer thread that moves due tasks onto the worker's queue. */
module Timer {
  import MessageQueues

  datatype Deferred = Deferred(task: nat, ms: nat)

  const UPDATE_MS := 500
  const TWO_32 := 0x1_0000_0000
  const TWO_31 := 0x8000_0000

  // ---- The comparator handed to qsort ----

  /** The difference of two unsigned 32-bit delays, as a signed 32-bit result. */
  function Compare(a: nat, b: nat): int {
    var d := (a - b) % TWO_32;
    if d < TWO_31 then d else d - TWO_32
  }

  /** The comparator orders two delays as numbers exactly when they differ by less than 2^31 (or by exactly that,
      the smaller first). */
  lemma CompareIff(a: nat, b: nat)
    requires a < TWO_32 && b < TWO_32
    ensures ((Compare(a, b) < 0 <==> a < b) && (Compare(a, b) > 0 <==> a > b)) <==> -TWO_31 <= a - b < TWO_31
  {
    if a < b { assert (a - b) % TWO_32 == a - b + TWO_32; } else { assert (a - b) % TWO_32 == a - b; }
  }

  /** A delay of 25 days sorts before no delay at all. */
  lemma CompareWraps()
    ensures 25 * 24 * 3600 * 1000 < TWO_32 && Compare(25 * 24 * 3600 * 1000, 0) < 0
  {
  }

  predicate SortedByCompare(list: seq<Deferred>) {
    forall i, j :: 0 <= i < j < |list| ==> Compare(list[i].ms, list[j].ms) <= 0
  }

  predicate Short(list: seq<Deferred>) {
    forall i :: 0 <= i < |list| ==> list[i].ms < TWO_31
  }

  /** What qsort may return: any rearrangement the comparator accepts. */
  ghost predicate Arranges(arranged: seq<Deferred>, list: seq<Deferred>) {
    multiset(arranged) == multiset(list) && SortedByCompare(arranged)
  }

  // ---- One pass of the timer ----

  function Due(list: seq<Deferred>, waited: nat): seq<nat> {
    if list == [] then []
    else (if list[0].ms - waited <= 0 then [list[0].task] else []) + Due(list[1..], waited)
  }

  function Rest(list: seq<Deferred>, waited: nat): seq<Deferred> {
    if list == [] then []
    else (if list[0].ms - waited <= 0 then [] else [Deferred(list[0].task, list[0].ms - waited)])
         + Rest(list[1..], waited)
  }

  /** `added` and `sent` record every task deferred and every task moved to the queue, in order; `elapsed` is how
      long the current wait has lasted, as far as the deferrals made during it tell. */
  datatype State = State(list: seq<Deferred>, nextWait: nat, isFirst: bool, sent: seq<nat>, added: seq<nat>,
                         elapsed: nat)

  const STARTED := State([], UPDATE_MS, true, [], [], 0)

  /** `since` is the time from the start of the current wait to the deferral, `waited` the length of the whole wait. */
  datatype Event = Defer(task: nat, ms: nat, since: nat) | Wake(waited: nat, arranged: seq<Deferred>)

  ghost predicate Enabled(s: State, e: Event) {
    match e
    case Defer(task, ms, since) => task !in s.added && ms < TWO_31 && s.elapsed <= since
    case Wake(waited, arranged) => Arranges(arranged, s.list) && s.elapsed <= waited
  }

  function AfterPass(s: State, waited: nat, arranged: seq<Deferred>): State {
    if s.list == [] then s.(elapsed := 0)
    else
      var list := if s.isFirst then arranged else Rest(arranged, waited);
      var sent := if s.isFirst then s.sent else s.sent + Due(arranged, waited);
      State(list, if list != [] then list[0].ms else UPDATE_MS, list == [], sent, s.added, 0)
  }

  function Step(s: State, e: Event): State {
    match e
    case Defer(task, ms, since) =>
      s.(list := s.list + [Deferred(task, ms)], added := s.added + [task], elapsed := since)
    case Wake(waited, arranged) => AfterPass(s, waited, arranged)
  }

  class WorkingThread {
    var deferredTasks: seq<Deferred>
    var nextWait: nat
    var isFirstWait: bool
    const taskQueue: MessageQueues.MessageQueue<nat>
    ghost var sent: seq<nat>
    ghost var added: seq<nat>
    ghost var elapsed: nat

    constructor ()
      ensures AsState() == STARTED
      ensures fresh(taskQueue) && taskQueue.messages == []
    {
      deferredTasks, nextWait, isFirstWait := [], UPDATE_MS, true;
      taskQueue := new MessageQueues.MessageQueue<nat>();
      sent, added, elapsed := [], [], 0;
    }

    ghost function AsState(): State
      reads this
    {
      State(deferredTasks, nextWait, isFirstWait, sent, added, elapsed)
    }

    method EnqueueTask(task: nat)
      modifies taskQueue
      ensures taskQueue.messages == old(taskQueue.messages) + [task]
    {
      taskQueue.Push(task);
    }

    method EnqueueTaskAfterTimeOut(task: nat, ms: nat, ghost since: nat)
      modifies this
      ensures AsState() == Step(old(AsState()), Defer(task, ms, since))
    {
      deferredTasks := deferredTasks + [Deferred(task, ms)];
      added, elapsed := added + [task], since;
    }

    /** The erase loop: due tasks go to the queue, the others are charged the wait. */
    method Sweep(waited: nat)
      modifies this`deferredTasks, this`sent, taskQueue
      ensures deferredTasks == Rest(old(deferredTasks), waited)
      ensures sent == old(sent) + Due(old(deferredTasks), waited)
      ensures taskQueue.messages == old(taskQueue.messages) + Due(old(deferredTasks), waited)
    {
      var i := 0;
      ghost var all, left, due: seq<nat> := deferredTasks, deferredTasks, [];
      while i < |deferredTasks|
        invariant i <= |deferredTasks| && deferredTasks[i..] == left && sent == old(sent)
        invariant taskQueue.messages == old(taskQueue.messages) + due && due + Due(left, waited) == Due(all, waited)
        invariant deferredTasks[..i] + Rest(left, waited) == Rest(all, waited)
        decreases |deferredTasks| - i
      {
        ghost var kept := deferredTasks[..i];
        if deferredTasks[i].ms - waited <= 0 {
          EnqueueTask(deferredTasks[i].task);
          due := due + [left[0].task];
          deferredTasks := deferredTasks[..i] + deferredTasks[i + 1..];
          assert deferredTasks[..i] == kept;
        } else {
          deferredTasks := deferredTasks[i := deferredTasks[i].(ms := deferredTasks[i].ms - waited)];
          i := i + 1;
          assert deferredTasks[..i] == kept + [Deferred(left[0].task, left[0].ms - waited)];
        }
        left := left[1..];
        assert deferredTasks[i..] == left;
      }
      assert deferredTasks[..i] + [] == deferredTasks && due + [] == due;
      sent := sent + due;
    }

    /** The timer's loop body after a wait of `waited` ms; `arranged` is what qsort left in the list. The tasks sent
        are the ones put on the worker's queue. */
    method DeferredTasksPass(waited: nat, arranged: seq<Deferred>)
      requires Arranges(arranged, deferredTasks)
      modifies this, taskQueue
      ensures AsState() == Step(old(AsState()), Wake(waited, arranged))
      ensures sent == old(sent) + sent[|old(sent)|..]
      ensures taskQueue.messages == old(taskQueue.messages) + sent[|old(sent)|..]
    {
      elapsed := 0;
      if deferredTasks == [] { return; }
      assert |multiset(arranged)| == |multiset(deferredTasks)|;
      deferredTasks := arranged;
      if isFirstWait {
        isFirstWait := false;
      } else {
        Sweep(waited);
      }
      if deferredTasks != [] {
        nextWait := deferredTasks[0].ms;
      } else {
        isFirstWait := true;
        nextWait := UPDATE_MS;
      }
    }
  }
}
