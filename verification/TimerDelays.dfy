/** How long a deferred task waits: what it is charged, and when it can be sent before its delay is over. */
module TimerDelays {
  import opened Timer
  import opened TimerProofs

  // ---- Time ----

  /** The time from the start of the current wait to the end of the last wait of the run. */
  function Slept(run: seq<Event>): nat {
    if run == [] then 0 else (if run[0].Wake? then run[0].waited else 0) + Slept(run[1..])
  }

  /** What an event takes from the delay of every task in the list: a whole wait, or nothing. */
  function Charge(s: State, e: Event): nat {
    if e.Wake? && s.list != [] && !s.isFirst then e.waited else 0
  }

  function Charged(s: State, run: seq<Event>): nat
    decreases |run|
  {
    if run == [] then 0 else Charge(s, run[0]) + Charged(Step(s, run[0]), run[1..])
  }

  // ---- The ledger ----

  lemma StepCharges(s: State, e: Event, t: nat, m: nat)
    requires Enabled(s, e) && Deferred(t, m) in s.list && m > 0
    ensures Charge(s, e) < m ==> Deferred(t, m - Charge(s, e)) in Step(s, e).list
    ensures Charge(s, e) >= m ==> t in Step(s, e).sent
  {
    if e.Wake? {
      assert Deferred(t, m) in multiset(e.arranged);
      var j :| 0 <= j < |e.arranged| && e.arranged[j] == Deferred(t, m);
      SweepOne(e.arranged, e.waited, j);
    }
  }

  lemma {:induction false} SentStays(s: State, run: seq<Event>)
    ensures s.sent <= Final(s, run).sent
    decreases |run|
  {
    if run != [] { SentStays(Step(s, run[0]), run[1..]); }
  }

  lemma {:induction false} ChargesAddUp(s: State, run: seq<Event>, t: nat, m: nat)
    requires Legal(s, run) && Deferred(t, m) in s.list && m > 0
    ensures Charged(s, run) < m ==> Deferred(t, m - Charged(s, run)) in Final(s, run).list
    ensures Charged(s, run) >= m ==> t in Final(s, run).sent
    decreases |run|
  {
    if run != [] {
      var charge, s' := Charge(s, run[0]), Step(s, run[0]);
      StepCharges(s, run[0], t, m);
      if charge < m { ChargesAddUp(s', run[1..], t, m - charge); } else { SentStays(s', run[1..]); }
    }
  }

  /** A task in the list has its delay less the waits charged since; it has been sent once they have used it up. */
  lemma RemainingDelay(s: State, run: seq<Event>, t: nat, m: nat)
    requires Conserved(s) && Legal(s, run) && Deferred(t, m) in s.list && m > 0
    ensures var s', left := Final(s, run), m - Charged(s, run);
            if left > 0 then Deferred(t, left) in s'.list && t !in s'.sent
            else t in s'.sent && t !in TasksOf(s'.list)
  {
    RunConserves(s, run);
    ChargesAddUp(s, run, t, m);
    var s' := Final(s, run);
    if t in s'.sent { SentIsGone(s', t); }
    if Charged(s, run) < m { InRest(s'.list, Deferred(t, m - Charged(s, run))); }
  }

  // ---- When a task can be early ----

  /** Charges never exceed the time slept. From a state whose first wake-up charges nothing they fall short of it by
      what had elapsed of the wait; and nothing is sent before a wait is over. */
  lemma {:induction false} ChargedSlept(s: State, run: seq<Event>)
    requires Legal(s, run)
    ensures Charged(s, run) <= Slept(run)
    ensures Final(s, run).sent == s.sent || s.elapsed <= Slept(run)
    ensures s.list != [] && s.isFirst ==> Final(s, run).sent == s.sent || s.elapsed + Charged(s, run) <= Slept(run)
    decreases |run|
  {
    if run != [] { ChargedSlept(Step(s, run[0]), run[1..]); }
  }

  /** Once waits are charged, and while a task is listed, every wait is charged. */
  lemma {:induction false} AllCharged(s: State, run: seq<Event>, t: nat, m: nat)
    requires Legal(s, run) && Deferred(t, m) in s.list && m > 0 && !s.isFirst && Charged(s, run) < m
    ensures Charged(s, run) == Slept(run)
    decreases |run|
  {
    if run != [] {
      var s' := Step(s, run[0]);
      StepCharges(s, run[0], t, m);
      assert run[0].Wake? && s.list != [] ==> Charge(s, run[0]) == run[0].waited;
      AllCharged(s', run[1..], t, m - Charge(s, run[0]));
    }
  }

  /** No task waits longer than it has to: after the wake-up that follows its deferral, a listed task has been sent
      exactly if the timer has slept for its remaining delay. */
  lemma SentInTime(s: State, run: seq<Event>, t: nat, m: nat)
    requires Conserved(s) && Legal(s, run) && Deferred(t, m) in s.list && m > 0 && !s.isFirst
    ensures t in Final(s, run).sent <==> Slept(run) >= m
  {
    RemainingDelay(s, run, t, m);
    ChargedSlept(s, run);
    if Charged(s, run) < m { AllCharged(s, run, t, m); }
  }

  /** However the run goes on, `t` is not sent before `ms` have passed since it was deferred, `since` into the wait. */
  ghost predicate NeverEarly(s: State, t: nat, ms: nat, since: nat) {
    var s' := Step(s, Defer(t, ms, since));
    forall run :: Legal(s', run) && t in Final(s', run).sent ==> Slept(run) - since >= ms
  }

  lemma DeferredIsListed(s: State, t: nat, ms: nat, since: nat)
    requires Conserved(s) && Enabled(s, Defer(t, ms, since))
    ensures var s' := Step(s, Defer(t, ms, since));
            Conserved(s') && s'.list[|s.list|] == Deferred(t, ms) && Deferred(t, ms) in s'.list && t !in s'.sent
  {
    var s' := Step(s, Defer(t, ms, since));
    DeferConserves(s, t, ms, since);
    assert s'.list[|s.list|] == Deferred(t, ms);
    if t in s'.sent {
      SentIsGone(s', t);
      InRest(s'.list, Deferred(t, ms));
    }
  }

  /** A task is never early by more than the part of the wait that had elapsed when it was deferred. */
  lemma EarlyByAtMost(s: State, t: nat, ms: nat, since: nat, run: seq<Event>)
    requires Conserved(s) && Enabled(s, Defer(t, ms, since))
    requires var s' := Step(s, Defer(t, ms, since)); Legal(s', run) && t in Final(s', run).sent
    ensures Slept(run) >= ms
    ensures s.isFirst || since == 0 || ms == 0 ==> Slept(run) - since >= ms
  {
    var s' := Step(s, Defer(t, ms, since));
    DeferredIsListed(s, t, ms, since);
    ChargedSlept(s', run);
    if ms > 0 { RemainingDelay(s', run, t, ms); }
  }

  function Inserted(x: Deferred, list: seq<Deferred>): seq<Deferred> {
    if list == [] || x.ms <= list[0].ms then [x] + list else [list[0]] + Inserted(x, list[1..])
  }

  lemma {:induction false} InsertedSame(x: Deferred, list: seq<Deferred>)
    ensures multiset(Inserted(x, list)) == multiset(list) + multiset{x}
    decreases |list|
  {
    if list != [] {
      InsertedSame(x, list[1..]);
      assert list == [list[0]] + list[1..];
    }
  }

  lemma {:induction false} InsertedSorted(x: Deferred, list: seq<Deferred>)
    requires SortedByDelay(list)
    ensures SortedByDelay(Inserted(x, list))
    decreases |list|
  {
    if list != [] && x.ms > list[0].ms {
      var rest := Inserted(x, list[1..]);
      InsertedSorted(x, list[1..]);
      InsertedSame(x, list[1..]);
      forall k | 0 <= k < |rest| ensures list[0].ms <= rest[k].ms {
        assert rest[k] in multiset(list[1..]) + multiset{x};
      }
    }
  }

  /** qsort always has something to return. */
  lemma {:induction false} CanArrange(list: seq<Deferred>) returns (arranged: seq<Deferred>)
    requires Short(list)
    ensures SortedByDelay(arranged) && Arranges(arranged, list)
    decreases |list|
  {
    if list == [] {
      arranged := [];
    } else {
      var rest := CanArrange(list[1..]);
      InsertedSorted(list[0], rest);
      InsertedSame(list[0], rest);
      arranged := Inserted(list[0], rest);
      assert list == [list[0]] + list[1..];
    }
    ArrangedShort(arranged, list);
    forall i, j | 0 <= i < j < |arranged| ensures Compare(arranged[i].ms, arranged[j].ms) <= 0 {
      CompareIff(arranged[i].ms, arranged[j].ms);
    }
  }

  /** Some way to go on sends a task deferred during a charged wait at that wait's end, too early. */
  lemma CanBeEarly(s: State, t: nat, ms: nat, since: nat) returns (run: seq<Event>)
    requires Conserved(s) && Enabled(s, Defer(t, ms, since)) && !s.isFirst && since > 0 && ms > 0
    ensures var s' := Step(s, Defer(t, ms, since));
            Legal(s', run) && t in Final(s', run).sent && Slept(run) - since < ms
  {
    var s' := Step(s, Defer(t, ms, since));
    DeferredIsListed(s, t, ms, since);
    var arranged := CanArrange(s'.list);
    var waited := if since > ms then since else ms;
    run := [Wake(waited, arranged)];
    assert run[1..] == [] && Legal(Step(s', run[0]), []);
    StepCharges(s', run[0], t, ms);
  }

  /** A deferred task is safe from being sent early exactly if it is deferred while the next wake-up charges nothing,
      or at the very start of a wait, or has no delay to wait for. */
  lemma NeverEarlyIff(s: State, t: nat, ms: nat, since: nat)
    requires Conserved(s) && Enabled(s, Defer(t, ms, since))
    ensures NeverEarly(s, t, ms, since) <==> s.isFirst || since == 0 || ms == 0
  {
    var s' := Step(s, Defer(t, ms, since));
    if s.isFirst || since == 0 || ms == 0 {
      forall run | Legal(s', run) && t in Final(s', run).sent ensures Slept(run) - since >= ms {
        EarlyByAtMost(s, t, ms, since, run);
      }
    } else {
      var run := CanBeEarly(s, t, ms, since);
    }
  }

  // ---- An input that shows it ----

  const ONE := [Deferred(1, 600)]
  const BOTH := [Deferred(2, 400), Deferred(1, 600)]
  const CHARGED := [Deferred(2, 100), Deferred(1, 300)]
  const BUSY := State([Deferred(1, 600), Deferred(2, 400)], 600, false, [], [1, 2], 300)

  lemma Then(s: State, e: Event, run: seq<Event>)
    requires Enabled(s, e) && Legal(Step(s, e), run)
    ensures Legal(s, [e] + run) && Final(s, [e] + run) == Final(Step(s, e), run)
    ensures Slept([e] + run) == (if e.Wake? then e.waited else 0) + Slept(run)
  {
    assert ([e] + run)[1..] == run;
  }

  lemma BusyIsReached()
    ensures var run := [Defer(1, 600, 0)] + ([Wake(0, ONE)] + ([Defer(2, 400, 300)] + []));
            Legal(STARTED, run) && Final(STARTED, run) == BUSY
  {
    var s := State(ONE, 500, true, [], [1], 0);
    var s' := State(ONE, 600, false, [], [1], 0);
    assert Step(STARTED, Defer(1, 600, 0)) == s && Step(s, Wake(0, ONE)) == s';
    assert ONE + [Deferred(2, 400)] == BUSY.list && [1] + [2] == BUSY.added;
    Then(s', Defer(2, 400, 300), []);
    Then(s, Wake(0, ONE), [Defer(2, 400, 300)] + []);
    Then(STARTED, Defer(1, 600, 0), [Wake(0, ONE)] + ([Defer(2, 400, 300)] + []));
  }

  lemma PairSwept(x: Deferred, y: Deferred, waited: nat)
    ensures waited < x.ms && waited < y.ms ==>
              && Due([x, y], waited) == []
              && Rest([x, y], waited) == [Deferred(x.task, x.ms - waited), Deferred(y.task, y.ms - waited)]
    ensures x.ms <= waited < y.ms ==> Due([x, y], waited) == [x.task]
  {
    assert [x, y][1..] == [y] && [y][1..] == [];
    assert Due([y], waited) == (if y.ms <= waited then [y.task] else []) + [];
    assert Rest([y], waited) == (if y.ms <= waited then [] else [Deferred(y.task, y.ms - waited)]) + [];
  }

  /** Task 2 is deferred for 400 ms, 300 ms into a wait that the deferral itself ends. It is charged those 300 ms, and
      is sent 100 ms after it was deferred. */
  lemma DeferredDuringWaitIsEarly()
    ensures var before := [Defer(1, 600, 0)] + ([Wake(0, ONE)] + ([Defer(2, 400, 300)] + []));
            var after := [Wake(300, BOTH)] + ([Wake(100, CHARGED)] + []);
            && Legal(STARTED, before) && Legal(Final(STARTED, before), after)
            && 2 in Final(Final(STARTED, before), after).sent
            && Slept(after) - 300 == 100
  {
    BusyIsReached();
    PairSwept(BOTH[0], BOTH[1], 300);
    PairSwept(CHARGED[0], CHARGED[1], 100);
    var s := State(CHARGED, 100, false, [], [1, 2], 0);
    assert Step(BUSY, Wake(300, BOTH)) == s;
    Then(s, Wake(100, CHARGED), []);
    Then(BUSY, Wake(300, BOTH), [Wake(100, CHARGED)] + []);
  }
}
