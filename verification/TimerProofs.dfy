/** What every run of the timer keeps, for delays below 2^31 ms and before `Stop`. */
module TimerProofs {
  import opened Common
  import opened Timer

  function TasksOf(list: seq<Deferred>): seq<nat> {
    seq(|list|, i requires 0 <= i < |list| => list[i].task)
  }

  /** How often task `t` is in the list. */
  function Times(list: seq<Deferred>, t: nat): nat {
    multiset(TasksOf(list))[t]
  }

  function Sent(s: State, t: nat): nat {
    multiset(s.sent)[t]
  }

  function Added(s: State, t: nat): nat {
    multiset(s.added)[t]
  }

  /** Every task deferred is in the list or has been sent, once; no task is deferred twice. */
  ghost predicate Conserved(s: State) {
    && (forall t :: Added(s, t) == Times(s.list, t) + Sent(s, t))
    && (forall t :: Added(s, t) <= 1)
    && Short(s.list)
  }

  // ---- Rearranging, and one pass ----

  lemma WithoutTimes(a: seq<Deferred>, j: nat, t: nat)
    requires j < |a|
    ensures Times(a, t) == Times(Without(a, j), t) + if a[j].task == t then 1 else 0
  {
    assert TasksOf(a) == TasksOf(a[..j]) + [a[j].task] + TasksOf(a[j + 1..]);
    assert TasksOf(Without(a, j)) == TasksOf(a[..j]) + TasksOf(a[j + 1..]);
  }

  lemma {:induction false} SameTimes(a: seq<Deferred>, b: seq<Deferred>, t: nat)
    requires multiset(a) == multiset(b)
    ensures Times(a, t) == Times(b, t)
    decreases |a|
  {
    assert |multiset(a)| == |multiset(b)|;
    if a == [] {
      assert TasksOf(a) == TasksOf(b);
    } else {
      assert a[0] in multiset(b);
      var j :| 0 <= j < |b| && b[j] == a[0];
      WithoutMultiset(a, 0);
      WithoutMultiset(b, j);
      WithoutTimes(a, 0, t);
      WithoutTimes(b, j, t);
      SameTimes(Without(a, 0), Without(b, j), t);
    }
  }

  lemma TimesCons(x: Deferred, list: seq<Deferred>, t: nat)
    ensures Times([x] + list, t) == Times(list, t) + if x.task == t then 1 else 0
  {
    assert TasksOf([x] + list) == [x.task] + TasksOf(list);
  }

  lemma CountCons(x: nat, s: seq<nat>, t: nat)
    ensures multiset([x] + s)[t] == multiset(s)[t] + if x == t then 1 else 0
  {
  }

  lemma {:induction false} SweepConserves(list: seq<Deferred>, waited: nat, t: nat)
    ensures Times(list, t) == multiset(Due(list, waited))[t] + Times(Rest(list, waited), t)
    decreases |list|
  {
    hide Times;
    if list == [] {
      assert Rest(list, waited) == list && multiset(Due(list, waited))[t] == 0;
    } else {
      var x, due, rest := list[0], Due(list[1..], waited), Rest(list[1..], waited);
      SweepConserves(list[1..], waited, t);
      assert list == [x] + list[1..];
      TimesCons(x, list[1..], t);
      if x.ms > waited {
        TimesCons(Deferred(x.task, x.ms - waited), rest, t);
        assert Due(list, waited) == due;
      } else {
        CountCons(x.task, due, t);
        assert Rest(list, waited) == rest;
      }
    }
  }

  lemma {:induction false} SweepShort(list: seq<Deferred>, waited: nat)
    requires Short(list)
    ensures Short(Rest(list, waited))
    decreases |list|
  {
    if list != [] { SweepShort(list[1..], waited); }
  }

  lemma ArrangedShort(arranged: seq<Deferred>, list: seq<Deferred>)
    requires multiset(arranged) == multiset(list) && Short(list)
    ensures Short(arranged) && |arranged| == |list|
  {
    assert |multiset(arranged)| == |multiset(list)|;
    forall i | 0 <= i < |arranged| ensures arranged[i].ms < TWO_31 {
      assert arranged[i] in multiset(list);
      var j :| 0 <= j < |list| && list[j] == arranged[i];
    }
  }

  lemma WakeConserves(s: State, waited: nat, arranged: seq<Deferred>)
    requires Conserved(s) && Arranges(arranged, s.list)
    ensures Conserved(AfterPass(s, waited, arranged))
  {
    var s' := AfterPass(s, waited, arranged);
    ArrangedShort(arranged, s.list);
    SweepShort(arranged, waited);
    forall t ensures Added(s', t) == Times(s'.list, t) + Sent(s', t) && Added(s', t) <= 1 {
      assert Added(s, t) == Times(s.list, t) + Sent(s, t) && Added(s, t) <= 1;
      SameTimes(arranged, s.list, t);
      SweepConserves(arranged, waited, t);
    }
  }

  lemma DeferConserves(s: State, task: nat, ms: nat, since: nat)
    requires Conserved(s) && task !in s.added && ms < TWO_31
    ensures Conserved(Step(s, Defer(task, ms, since)))
  {
    var s' := Step(s, Defer(task, ms, since));
    assert TasksOf(s'.list) == TasksOf(s.list) + [task];
    forall t ensures Added(s', t) == Times(s'.list, t) + Sent(s', t) && Added(s', t) <= 1 {
      assert Added(s, t) == Times(s.list, t) + Sent(s, t) && Added(s, t) <= 1;
    }
  }

  lemma StepConserves(s: State, e: Event)
    requires Conserved(s) && Enabled(s, e)
    ensures Conserved(Step(s, e))
  {
    match e
    case Defer(task, ms, since) => DeferConserves(s, task, ms, since);
    case Wake(waited, arranged) => WakeConserves(s, waited, arranged);
  }

  // ---- Smaller delays first ----

  predicate SortedByDelay(list: seq<Deferred>) {
    forall i, j :: 0 <= i < j < |list| ==> list[i].ms <= list[j].ms
  }

  lemma ArrangedSorted(arranged: seq<Deferred>)
    requires Short(arranged) && SortedByCompare(arranged)
    ensures SortedByDelay(arranged)
  {
    forall i, j | 0 <= i < j < |arranged| ensures arranged[i].ms <= arranged[j].ms {
      CompareIff(arranged[i].ms, arranged[j].ms);
    }
  }

  /** Task `a` stands before task `b` in the list, or both do, with a strictly smaller delay. */
  predicate Sooner(list: seq<Deferred>, a: nat, b: nat) {
    exists i, j :: 0 <= i < |list| && 0 <= j < |list| && list[i].task == a && list[j].task == b
                   && list[i].ms < list[j].ms
  }

  predicate Earlier(sent: seq<nat>, a: nat, b: nat) {
    exists i, j :: 0 <= i < j < |sent| && sent[i] == a && sent[j] == b
  }

  /** `a` will not be sent after `b`. */
  predicate Ahead(s: State, a: nat, b: nat) {
    || Sooner(s.list, a, b)
    || (a in s.sent && b in TasksOf(s.list))
    || Earlier(s.sent, a, b)
  }

  lemma ArrangedSooner(arranged: seq<Deferred>, list: seq<Deferred>, a: nat, b: nat)
    requires multiset(arranged) == multiset(list)
    ensures Sooner(list, a, b) ==> Sooner(arranged, a, b)
    ensures b in TasksOf(list) ==> b in TasksOf(arranged)
  {
    if Sooner(list, a, b) {
      var i, j :| 0 <= i < |list| && 0 <= j < |list| && list[i].task == a && list[j].task == b
                  && list[i].ms < list[j].ms;
      assert list[i] in multiset(arranged) && list[j] in multiset(arranged);
      var i' :| 0 <= i' < |arranged| && arranged[i'] == list[i];
      var j' :| 0 <= j' < |arranged| && arranged[j'] == list[j];
    }
    if b in TasksOf(list) {
      var j :| 0 <= j < |list| && TasksOf(list)[j] == b;
      assert list[j] in multiset(arranged);
      var j' :| 0 <= j' < |arranged| && arranged[j'] == list[j];
      assert TasksOf(arranged)[j'] == b;
    }
  }

  lemma {:induction false} SweepOne(list: seq<Deferred>, waited: nat, j: nat)
    requires j < |list|
    ensures list[j].ms <= waited ==> list[j].task in Due(list, waited)
    ensures list[j].ms > waited ==> Deferred(list[j].task, list[j].ms - waited) in Rest(list, waited)
    decreases |list|
  {
    if j > 0 { SweepOne(list[1..], waited, j - 1); }
  }

  lemma {:induction false} SweepTwo(list: seq<Deferred>, waited: nat, i: nat, j: nat)
    requires i < j < |list| && list[i].ms <= waited && list[j].ms <= waited
    ensures Earlier(Due(list, waited), list[i].task, list[j].task)
    decreases |list|
  {
    var due := Due(list, waited);
    if i == 0 {
      SweepOne(list[1..], waited, j - 1);
      var y :| 0 <= y < |Due(list[1..], waited)| && Due(list[1..], waited)[y] == list[j].task;
      assert due[0] == list[0].task && due[y + 1] == list[j].task;
    } else {
      SweepTwo(list[1..], waited, i - 1, j - 1);
      var x, y :| 0 <= x < y < |Due(list[1..], waited)| && Due(list[1..], waited)[x] == list[i].task
                  && Due(list[1..], waited)[y] == list[j].task;
      var k := if list[0].ms <= waited then 1 else 0;
      assert due[x + k] == list[i].task && due[y + k] == list[j].task;
    }
  }

  /** In one sweep of a sorted list the task with the smaller delay is sent first, or alone, or both stay. */
  lemma SweepAhead(list: seq<Deferred>, waited: nat, a: nat, b: nat)
    requires SortedByDelay(list) && Sooner(list, a, b)
    ensures || Earlier(Due(list, waited), a, b)
            || (a in Due(list, waited) && b in TasksOf(Rest(list, waited)))
            || Sooner(Rest(list, waited), a, b)
  {
    var i, j :| 0 <= i < |list| && 0 <= j < |list| && list[i].task == a && list[j].task == b && list[i].ms < list[j].ms;
    SweepOne(list, waited, i);
    SweepOne(list, waited, j);
    if list[j].ms <= waited {
      SweepTwo(list, waited, i, j);
    } else {
      InRest(Rest(list, waited), Deferred(b, list[j].ms - waited));
    }
  }

  lemma InRest(rest: seq<Deferred>, x: Deferred)
    requires x in rest
    ensures x.task in TasksOf(rest)
  {
    var k :| 0 <= k < |rest| && rest[k] == x;
    assert TasksOf(rest)[k] == x.task;
  }

  lemma {:induction false} SweepKeepsOrSends(list: seq<Deferred>, waited: nat, b: nat)
    requires b in TasksOf(list)
    ensures b in Due(list, waited) || b in TasksOf(Rest(list, waited))
  {
    var j :| 0 <= j < |list| && TasksOf(list)[j] == b;
    SweepOne(list, waited, j);
    if list[j].ms > waited { InRest(Rest(list, waited), Deferred(b, list[j].ms - waited)); }
  }

  lemma EarlierAcross(old': seq<nat>, new': seq<nat>, a: nat, b: nat)
    ensures Earlier(old', a, b) ==> Earlier(old' + new', a, b)
    ensures Earlier(new', a, b) ==> Earlier(old' + new', a, b)
    ensures a in old' && b in new' ==> Earlier(old' + new', a, b)
  {
    var all := old' + new';
    if Earlier(old', a, b) {
      var i, j :| 0 <= i < j < |old'| && old'[i] == a && old'[j] == b;
      assert all[i] == a && all[j] == b;
    }
    if Earlier(new', a, b) {
      var i, j :| 0 <= i < j < |new'| && new'[i] == a && new'[j] == b;
      assert all[|old'| + i] == a && all[|old'| + j] == b;
    }
    if a in old' && b in new' {
      var i :| 0 <= i < |old'| && old'[i] == a;
      var j :| 0 <= j < |new'| && new'[j] == b;
      assert all[i] == a && all[|old'| + j] == b;
    }
  }

  lemma WakeKeepsAhead(s: State, waited: nat, arranged: seq<Deferred>, a: nat, b: nat)
    requires Short(s.list) && Arranges(arranged, s.list) && Ahead(s, a, b)
    ensures Ahead(AfterPass(s, waited, arranged), a, b)
  {
    ArrangedShort(arranged, s.list);
    ArrangedSorted(arranged);
    ArrangedSooner(arranged, s.list, a, b);
    if s.list != [] && !s.isFirst {
      EarlierAcross(s.sent, Due(arranged, waited), a, b);
      if Sooner(s.list, a, b) { SweepAhead(arranged, waited, a, b); }
      else if a in s.sent && b in TasksOf(s.list) { SweepKeepsOrSends(arranged, waited, b); }
    }
  }

  lemma StepKeepsAhead(s: State, e: Event, a: nat, b: nat)
    requires Conserved(s) && Enabled(s, e) && Ahead(s, a, b)
    ensures Ahead(Step(s, e), a, b)
  {
    match e
    case Defer(task, ms, _) =>
      var list := s.list + [Deferred(task, ms)];
      assert forall i :: 0 <= i < |s.list| ==> list[i] == s.list[i];
      assert TasksOf(list) == TasksOf(s.list) + [task];
    case Wake(waited, arranged) => WakeKeepsAhead(s, waited, arranged, a, b);
  }

  // ---- Whole runs ----

  ghost predicate Legal(s: State, run: seq<Event>)
    decreases |run|
  {
    run == [] || (Enabled(s, run[0]) && Legal(Step(s, run[0]), run[1..]))
  }

  function Final(s: State, run: seq<Event>): State
    decreases |run|
  {
    if run == [] then s else Final(Step(s, run[0]), run[1..])
  }

  lemma {:induction false} RunConserves(s: State, run: seq<Event>)
    requires Conserved(s) && Legal(s, run)
    ensures Conserved(Final(s, run))
    decreases |run|
  {
    if run != [] {
      StepConserves(s, run[0]);
      RunConserves(Step(s, run[0]), run[1..]);
    }
  }

  /** No deferred task is lost or sent twice. */
  lemma NoTaskLost(run: seq<Event>, t: nat)
    requires Legal(STARTED, run)
    ensures var s := Final(STARTED, run);
            t in s.added ==> Times(s.list, t) + Sent(s, t) == 1
  {
    assert TasksOf([]) == [];
    RunConserves(STARTED, run);
    var s := Final(STARTED, run);
    assert Added(s, t) <= 1 && (t in s.added ==> t in multiset(s.added));
  }

  lemma {:induction false} RunKeepsAhead(s: State, run: seq<Event>, a: nat, b: nat)
    requires Conserved(s) && Legal(s, run) && Ahead(s, a, b)
    ensures Conserved(Final(s, run)) && Ahead(Final(s, run), a, b)
    decreases |run|
  {
    if run != [] {
      StepConserves(s, run[0]);
      StepKeepsAhead(s, run[0], a, b);
      RunKeepsAhead(Step(s, run[0]), run[1..], a, b);
    }
  }

  /** Of two tasks in the list at the same time, the one with the smaller remaining delay is never sent after the
      other, however the run goes on. */
  lemma ShorterDelayFirst(s: State, run: seq<Event>, a: nat, b: nat)
    requires Conserved(s) && Legal(s, run) && Sooner(s.list, a, b)
    ensures b in Final(s, run).sent ==> Earlier(Final(s, run).sent, a, b)
  {
    RunKeepsAhead(s, run, a, b);
    if b in Final(s, run).sent { SentIsGone(Final(s, run), b); }
  }

  lemma SentIsGone(s: State, b: nat)
    requires Conserved(s) && b in s.sent
    ensures b !in TasksOf(s.list) && forall a :: !Sooner(s.list, a, b)
  {
    assert b in multiset(s.sent) && Added(s, b) <= 1 && Added(s, b) == Times(s.list, b) + Sent(s, b);
    assert b !in multiset(TasksOf(s.list));
    forall a ensures !Sooner(s.list, a, b) {
      assert forall j :: 0 <= j < |s.list| ==> TasksOf(s.list)[j] == s.list[j].task;
    }
  }

  lemma {:induction false} RestSorted(list: seq<Deferred>, waited: nat)
    requires SortedByDelay(list)
    ensures SortedByDelay(Rest(list, waited))
    ensures forall x :: x in Rest(list, waited) ==> exists y :: y in list && x.ms == y.ms - waited
    decreases |list|
  {
    if list != [] {
      RestSorted(list[1..], waited);
      assert list == [list[0]] + list[1..];
      if list[0].ms > waited {
        var rest := Rest(list[1..], waited);
        forall k | 0 <= k < |rest| ensures list[0].ms - waited <= rest[k].ms {
          var y :| y in list[1..] && rest[k].ms == y.ms - waited;
        }
      }
    }
  }

  /** After a wake-up that leaves tasks, the next wait is their smallest remaining delay and will be charged; after one
      that leaves none, it is half a second and will not be charged. A wake-up that finds no tasks changes nothing. */
  lemma NextWaitIsLeast(s: State, waited: nat, arranged: seq<Deferred>)
    requires Conserved(s) && Arranges(arranged, s.list)
    ensures var s' := AfterPass(s, waited, arranged);
            && (s.list == [] ==> s'.list == [] && s'.nextWait == s.nextWait && s'.isFirst == s.isFirst
                                 && s'.sent == s.sent && s'.added == s.added)
            && (s.list != [] && s'.list != [] ==>
                  && !s'.isFirst
                  && (exists i :: 0 <= i < |s'.list| && s'.list[i].ms == s'.nextWait)
                  && (forall i :: 0 <= i < |s'.list| ==> s'.nextWait <= s'.list[i].ms))
            && (s.list != [] && s'.list == [] ==> s'.nextWait == 500 && s'.isFirst)
  {
    ArrangedShort(arranged, s.list);
    ArrangedSorted(arranged);
    RestSorted(arranged, waited);
    var s' := AfterPass(s, waited, arranged);
    if s.list != [] && s'.list != [] { assert s'.list[0].ms == s'.nextWait; }
  }
}
