/** How many update tasks a daemon has: an account of every run, and their growth while torrents stay unfinished. */
module ProtocolGrowth {
  import opened Common
  import opened Torrents
  import opened ServerSpec
  import opened Walking
  import opened Protocol
  import opened ProtocolProofs

  // ---- Counting update tasks ----

  function Count(list: seq<TaskType>): nat {
    multiset(list)[UpdateTorrentStatus]
  }

  /** The update tasks in the hands of the task being run: received and not yet queued, or being executed. */
  function InHand(pc: Pc): nat {
    match pc
    case Polled(todo) => Count(todo)
    case AtUpdate => 1
    case Reporting(_) => 1
    case _ => 0
  }

  /** The update tasks of daemon `d`: on the server, waiting in the client, and in hand. */
  function Updates(s: System, d: Id): nat {
    Count(TasksOf(s.server, d)) + Waiting(s, d)[UpdateTorrentStatus] + InHand(PcOf(s, d))
  }

  /** The server answers a report with this status by a new update task. */
  predicate Unfinished(status: Status) {
    !status.Downloaded? && !status.Generated?
  }

  function Bit(b: bool): nat {
    if b then 1 else 0
  }

  /** The update tasks a handler call adds for daemon `d`. */
  function CallAdds(s: Server, c: Call, d: Id): nat {
    if c.d != d then 0 else
    match c
    case CallAddTask(_, k) => Bit(k.UpdateTorrentStatus?)
    case CallHandshake(_) => Bit(s.first)
    case CallReport(_, t, _) => Bit(Unfinished(t.status))
    case CallDownloads(_) => Bit(d in s.downloads)
    case _ => 0
  }

  lemma CountMore(list: seq<TaskType>, k: TaskType)
    ensures Count(list + [k]) == Count(list) + Bit(k.UpdateTorrentStatus?)
  {
  }

  lemma AddTaskCount(s: Server, x: Id, k: TaskType, d: Id)
    ensures Count(TasksOf(AddTask(s, x, k), d)) == Count(TasksOf(s, d)) + Bit(x == d && k.UpdateTorrentStatus?)
  {
    CountMore(TasksOf(s, x), k);
  }

  lemma DispatchCount(s: Server, x: Id, d: Id)
    ensures Count(TasksOf(Dispatch(s, x), d)) == Count(TasksOf(s, d))
  {
    if s.deque != [] {
      var s1 := s.(downloads := s.downloads[x := Upsert(DownloadsOf(s, x), s.deque[0])], deque := s.deque[1..]);
      AddTaskCount(s1, x, DownloadTorrent, d);
    }
  }

  lemma {:induction false} DispatchToOthersCount(s: Server, x: Id, order: seq<Id>, d: Id)
    ensures Count(TasksOf(DispatchToOthers(s, x, order), d)) == Count(TasksOf(s, d))
    decreases |order|
  {
    if order != [] {
      DispatchCount(s, order[0], d);
      DispatchToOthersCount(if order[0] == x then s else Dispatch(s, order[0]), x, order[1..], d);
    }
  }

  lemma ReportCount(s: Server, x: Id, t: Torrent, order: seq<Id>, d: Id)
    ensures Count(TasksOf(Report(s, x, t, order), d)) == Count(TasksOf(s, d)) + Bit(x == d && Unfinished(t.status))
  {
    AddTaskCount(s, x, UpdateTorrentStatus, d);
    DispatchToOthersCount(Queued(s, x, t), x, order, d);
    assert TasksOf(Queued(s, x, t), d) == TasksOf(s, d) == TasksOf(RemoveUpdate(s, x, t), d);
  }

  lemma HandshakeCount(s: Server, x: Id, d: Id)
    ensures Count(TasksOf(Handshake(s, x), d)) == Count(TasksOf(s, d)) + Bit(x == d && s.first)
  {
    var s1 := s.(uuids := s.uuids + {x});
    if s.first {
      AddTaskCount(s1, x, GenerateMagnet, d);
      AddTaskCount(AddTask(s1, x, GenerateMagnet), x, UpdateTorrentStatus, d);
    } else {
      DispatchCount(s1, x, d);
    }
  }

  lemma TakeDownloadsCount(s: Server, x: Id, d: Id)
    ensures Count(TasksOf(TakeDownloads(s, x), d)) == Count(TasksOf(s, d)) + Bit(x == d && d in s.downloads)
  {
    if x in s.downloads {
      AddTaskCount(AddUpdates(s, x, s.downloads[x]).(downloads := s.downloads - {x}), x, UpdateTorrentStatus, d);
    }
  }

  lemma TakeOrderCount(s: Server, x: Id, newId: Id, d: Id)
    ensures TasksOf(TakeOrder(s, x, newId), d) == TasksOf(s, d)
  {
  }

  lemma NoTasks()
    ensures Count([]) == 0
  {
  }

  lemma CallCount(s: Server, c: Call, d: Id)
    ensures Count(TasksOf(After(s, c), d)) ==
              (if c == CallTasks(d) then 0 else Count(TasksOf(s, d)) + CallAdds(s, c, d))
    ensures c.CallTasks? ==> CallAdds(s, c, d) == 0
  {
    hide Count, Handshake, Report, AddTask, AddUpdates;
    match c
    case CallAddTask(x, k) => AddTaskCount(s, x, k, d);
    case CallHandshake(x) => HandshakeCount(s, x, d);
    case CallReport(x, t, order) => ReportCount(s, x, t, order, d);
    case CallDownloads(x) => TakeDownloadsCount(s, x, d);
    case CallTasks(x) => NoTasks();
    case CallOrder(x, newId) => TakeOrderCount(s, x, newId, d);
    case CallUpdates(x) =>
  }

  // ---- The account of every run ----

  /** The update tasks that a step adds for `d`. */
  function Adds(s: System, e: Event, d: Id): nat
    requires Enabled(s, e)
  {
    (if CallOf(s, e).Some? then CallAdds(s.server, CallOf(s, e).value, d) else 0)
    + Bit(e.d == d && (e.DownloadDone? || e.CreateDone?))
  }

  /** The update tasks of `d` that a step completes. */
  function Ends(e: Event, d: Id): nat {
    Bit(e == UpdateDone(d))
  }

  lemma OtherBalance(s: System, e: Event, d: Id)
    requires Enabled(s, e) && e.d != d
    ensures Updates(Step(s, e), d) + Ends(e, d) == Updates(s, d) + Adds(s, e, d)
  {
    hide After, Book, CallAdds, CallOf, Count, Moved, Enabled, Tasks, InHand;
    if CallOf(s, e).Some? {
      CallCount(s.server, CallOf(s, e).value, d);
    }
  }

  lemma OutsideBalance(s: System, e: Event)
    requires Enabled(s, e) && (e.Inject? || e.Start?)
    ensures Updates(Step(s, e), e.d) == Updates(s, e.d) + Adds(s, e, e.d)
  {
    hide Book, Count;
    if e.Inject? {
      AddTaskCount(s.server, e.d, e.k, e.d);
    } else if e.d !in s.clients {
      assert Tasks(Started().box) == multiset{MakeHandshake};
    }
  }

  lemma CountFirst(list: seq<TaskType>)
    ensures Count(list) == if list == [] then 0 else Bit(list[0].UpdateTorrentStatus?) + Count(list[1..])
  {
    if list != [] { assert list == [list[0]] + list[1..]; }
  }

  lemma GainCount(m: multiset<TaskType>, m': multiset<TaskType>, r: Request)
    requires m' == m + Gain(r)
    ensures m'[UpdateTorrentStatus] == m[UpdateTorrentStatus] + Bit(!r.Nothing? && r.k.UpdateTorrentStatus?)
  {
  }

  /** A step of d's own, apart from what its call does on the server; `m` and `m'` are its waiting tasks. */
  lemma OwnMove(c: Client, s: Server, e: Event, m: multiset<TaskType>, m': multiset<TaskType>)
    requires Ready(c, e) && !e.Inject? && !e.Start?
    requires if e.Dequeue? then m == m' + multiset{c.box.batch[0]} else m' == m + Gain(RequestOf(c.pc, e))
    ensures m'[UpdateTorrentStatus] + InHand(NextPc(c, s, e)) + Bit(e.UpdateDone?) ==
              m[UpdateTorrentStatus] + InHand(c.pc) + Bit(e.DownloadDone? || e.CreateDone?)
              + if e.PollRpc? && c.isRun then Count(TasksOf(s, e.d)) else 0
  {
    hide TasksOf, Count, Gain;
    if !e.Dequeue? { GainCount(m, m', RequestOf(c.pc, e)); }
    if c.pc.Polled? { CountFirst(c.pc.todo); }
  }

  lemma OwnBalance(s: System, e: Event)
    requires Enabled(s, e) && !e.Inject? && !e.Start?
    ensures Updates(Step(s, e), e.d) + Ends(e, e.d) == Updates(s, e.d) + Adds(s, e, e.d)
  {
    hide After, Book, CallAdds, Count, NextBox, NextPc, InHand, Tasks;
    var c := s.clients[e.d];
    NextTasks(c.box, c.pc, e);
    OwnMove(c, s.server, e, Tasks(c.box), Tasks(NextBox(c.box, c.pc, e)));
    if CallOf(s, e).Some? { CallCount(s.server, CallOf(s, e).value, e.d); }
  }

  lemma StepBalance(s: System, e: Event, d: Id)
    requires Enabled(s, e)
    ensures Updates(Step(s, e), d) + Ends(e, d) == Updates(s, d) + Adds(s, e, d)
  {
    hide Step, Adds, Updates;
    if e.d != d { OtherBalance(s, e, d); }
    else if e.Inject? || e.Start? { OutsideBalance(s, e); }
    else { OwnBalance(s, e); }
  }

  function Added(s: System, run: seq<Event>, d: Id): nat
    requires Legal(s, run)
    decreases |run|
  {
    if run == [] then 0 else Adds(s, run[0], d) + Added(Step(s, run[0]), run[1..], d)
  }

  function Ended(run: seq<Event>, d: Id): nat {
    if run == [] then 0 else Ends(run[0], d) + Ended(run[1..], d)
  }

  /** Over every run: no update task is lost or made from nothing. */
  lemma {:induction false} UpdatesBalance(s: System, run: seq<Event>, d: Id)
    requires Legal(s, run)
    ensures Updates(Final(s, run), d) + Ended(run, d) == Updates(s, d) + Added(s, run, d)
    decreases |run|
  {
    hide Updates, Adds;
    if run != [] {
      StepBalance(s, run[0], d);
      UpdatesBalance(Step(s, run[0]), run[1..], d);
    }
  }

  // ---- One update task ----

  /** Nothing the daemon does but run an update task, and no update task injected for it. Other daemons, its timer
      and the environment may do anything else. */
  predicate OnlyUpdates(run: seq<Event>, d: Id) {
    forall i :: 0 <= i < |run| && run[i].d == d ==>
      var e := run[i];
      e.UpdateRpc? || e.ReportRpc? || e.UpdateDone? || e.Fire? || e.Start? ||
      (e.Inject? && !e.k.UpdateTorrentStatus?)
  }

  /** The run's reports by `d` that find their torrent unfinished. */
  function UnfinishedReports(run: seq<Event>, d: Id): nat {
    if run == [] then 0
    else Bit(run[0].ReportRpc? && run[0].d == d && Unfinished(run[0].now.status)) + UnfinishedReports(run[1..], d)
  }

  predicate InUpdate(s: System, d: Id) {
    PcOf(s, d).AtUpdate? || PcOf(s, d).Reporting?
  }

  lemma UpdateAdds(s: System, e: Event, d: Id)
    requires Enabled(s, e) && OnlyUpdates([e], d)
    ensures Adds(s, e, d) == UnfinishedReports([e], d)
  {
    assert [e][0] == e && [e][1..] == [];
    assert UnfinishedReports([e], d) == Bit(e.ReportRpc? && e.d == d && Unfinished(e.now.status)) + 0;
  }

  lemma UpdateMoves(c: Client, s: Server, e: Event)
    requires Ready(c, e) && OnlyUpdates([e], e.d) && !e.Inject? && !e.Start?
    ensures Tasks(Moved(c, s, e).box) == Tasks(c.box)
    ensures var pc, pc' := c.pc, NextPc(c, s, e);
            && (pc.Idle? ==> pc'.Idle? && !e.UpdateDone?)
            && (pc.AtUpdate? || pc.Reporting? ==>
                  if e.UpdateDone? then pc'.Idle? else pc'.AtUpdate? || pc'.Reporting?)
  {
    assert [e][0] == e;
    NextTasks(c.box, c.pc, e);
  }

  lemma UpdateStep(s: System, e: Event, d: Id)
    requires Enabled(s, e) && OnlyUpdates([e], d) && d in s.clients && (InUpdate(s, d) || PcOf(s, d).Idle?)
    ensures var s' := Step(s, e);
            && Waiting(s', d) == Waiting(s, d) && d in s'.clients
            && (if InUpdate(s, d) && Ends(e, d) == 0 then InUpdate(s', d) else PcOf(s', d).Idle?)
            && Ends(e, d) <= Bit(InUpdate(s, d))
  {
    hide After, Book, OnlyUpdates, Tasks, NextBox, NextPc;
    if e.d == d && !e.Inject? && !e.Start? { UpdateMoves(s.clients[d], s.server, e); }
  }

  lemma {:induction false} UpdateRun(s: System, run: seq<Event>, d: Id)
    requires Legal(s, run) && OnlyUpdates(run, d) && d in s.clients && (InUpdate(s, d) || PcOf(s, d).Idle?)
    ensures Added(s, run, d) == UnfinishedReports(run, d)
    ensures var s' := Final(s, run);
            && Waiting(s', d) == Waiting(s, d) && d in s'.clients
            && (if InUpdate(s, d) && Ended(run, d) == 0 then InUpdate(s', d) else PcOf(s', d).Idle?)
            && Ended(run, d) <= Bit(InUpdate(s, d))
    decreases |run|
  {
    hide Adds, Waiting;
    if run != [] {
      var s1 := Step(s, run[0]);
      assert [run[0]][0] == run[0] && [run[0]][1..] == [];
      UpdateAdds(s, run[0], d);
      UpdateStep(s, run[0], d);
      UpdateRun(s1, run[1..], d);
    }
  }

  /** One update task from its start to its end, whatever the others do meanwhile: the server gains one update task
      for every report that finds its torrent unfinished, and none for the others. So the daemon has no more update
      tasks than before if and only if at most one torrent was unfinished. */
  lemma OneUpdateTask(s: System, run: seq<Event>, d: Id)
    requires Legal(s, run) && OnlyUpdates(run, d) && d in s.clients && s.clients[d].pc.AtUpdate?
    requires PcOf(Final(s, run), d).Idle?
    ensures var s', unfinished := Final(s, run), UnfinishedReports(run, d);
            && Count(TasksOf(s'.server, d)) == Count(TasksOf(s.server, d)) + unfinished
            && (Updates(s', d) <= Updates(s, d) <==> unfinished <= 1)
  {
    UpdateRun(s, run, d);
    UpdatesBalance(s, run, d);
  }

  // ---- Polling while torrents stay unfinished ----

  /** Daemon `d` only polls and runs update tasks, its reports find every torrent unfinished, and no update task is
      injected for it. Everybody else may do anything. */
  predicate Stalls(e: Event, d: Id) {
    e.d == d ==>
      && (e.ReportRpc? ==> Unfinished(e.now.status))
      && (e.Inject? ==> !e.k.UpdateTorrentStatus?)
      && !e.HandshakeRpc? && !e.DownloadRpc? && !e.DownloadOne? && !e.DownloadDone? && !e.CreateRpc? && !e.CreateDone?
  }

  predicate Stalled(run: seq<Event>, d: Id) {
    forall i :: 0 <= i < |run| ==> Stalls(run[i], d)
  }

  function Polls(run: seq<Event>, d: Id): nat {
    if run == [] then 0 else Bit(run[0] == PollRpc(d)) + Polls(run[1..], d)
  }

  function Power(k: nat, n: nat): nat {
    if n == 0 then 1 else k * Power(k, n - 1)
  }

  /** The tasks a worker will run before any it gets from now on. */
  function Line(b: Box): seq<TaskType> {
    b.batch + b.queue
  }

  /** No update task stands behind the polling task. */
  predicate PollLast(line: seq<TaskType>) {
    forall i, j :: 0 <= i < j < |line| && line[i] == UpdateTaskList ==> line[j] != UpdateTorrentStatus
  }

  /** The client's polling task comes after all its update tasks. */
  predicate PollsLast(b: Box, pc: Pc) {
    && PollLast(Line(b)) && UpdateTorrentStatus !in b.deferred
    && (pc.AtPoll? ==> UpdateTorrentStatus !in Line(b))
  }

  lemma PollLastRest(line: seq<TaskType>, rest: seq<TaskType>)
    requires line != [] && PollLast(line) && rest == line[1..]
    ensures PollLast(rest) && (line[0] == UpdateTaskList ==> UpdateTorrentStatus !in rest)
  {
  }

  lemma PollLastMore(line: seq<TaskType>, k: TaskType)
    requires PollLast(line) && (k == UpdateTorrentStatus ==> UpdateTaskList !in line)
    ensures PollLast(line + [k])
  {
  }

  lemma NotInLine(b: Box, k: TaskType)
    requires k !in Tasks(b)
    ensures k !in Line(b)
  {
  }

  lemma LineMoves(c: Client, s: Server, e: Event)
    requires Ready(c, e) && Stalls(e, e.d) && PollsLast(c.box, c.pc) && TokenKept(c) && !e.Inject? && !e.Start?
    ensures PollsLast(NextBox(c.box, c.pc, e), NextPc(c, s, e))
  {
    hide PollLast, Tasks;
    var b, b' := c.box, NextBox(c.box, c.pc, e);
    if e.Dequeue? {
      assert Line(b') == Line(b)[1..] && Line(b)[0] == b.batch[0];
      PollLastRest(Line(b), Line(b'));
    } else if e.Fire? {
      assert Line(b') == Line(b) + [b.deferred[e.i]];
      PollLastMore(Line(b), b.deferred[e.i]);
    } else if e.PollAdd? {
      assert Line(b') == Line(b) + [c.pc.todo[0]];
      NotInLine(b, UpdateTaskList);
      PollLastMore(Line(b), c.pc.todo[0]);
    } else if RequestOf(c.pc, e).Enqueue? {
      assert Line(b') == Line(b) + [UpdateTaskList];
      PollLastMore(Line(b), UpdateTaskList);
    } else {
      assert Line(b') == Line(b);
    }
  }

  /** Update tasks in the client that have not yet got their list of torrents. */
  function Unserved(m: multiset<TaskType>, pc: Pc): nat {
    m[UpdateTorrentStatus] + if pc.Polled? then Count(pc.todo) else if pc.AtUpdate? then 1 else 0
  }

  /** What the update tasks of `d` will be on the server once the client has run those it has, `k` torrents each. */
  function Weight(tasks: seq<TaskType>, m: multiset<TaskType>, pc: Pc, k: nat): nat {
    Count(tasks) + k * Unserved(m, pc) + if pc.Reporting? then |pc.left| else 0
  }

  function WeightOf(s: System, d: Id): nat {
    Weight(TasksOf(s.server, d), Waiting(s, d), PcOf(s, d), |UpdatesOf(s.server, d)|)
  }

  lemma UnservedMoves(c: Client, s: Server, e: Event, m: multiset<TaskType>, m': multiset<TaskType>)
    requires Ready(c, e) && Stalls(e, e.d) && !e.Inject? && !e.Start?
    requires if e.Dequeue? then m == m' + multiset{c.box.batch[0]} else m' == m + Gain(RequestOf(c.pc, e))
    ensures Unserved(m', NextPc(c, s, e)) + Bit(e.UpdateRpc?) ==
              Unserved(m, c.pc) + if e.PollRpc? && c.isRun then Count(TasksOf(s, e.d)) else 0
  {
    hide TasksOf, Count, Gain;
    if !e.Dequeue? { GainCount(m, m', RequestOf(c.pc, e)); }
    if c.pc.Polled? { CountFirst(c.pc.todo); }
  }

  /** The client does not have an update task when it polls, and then each one on the server counts for `k`. */
  lemma OwnWeight(c: Client, s: Server, e: Event, m: multiset<TaskType>, m': multiset<TaskType>, tasks': seq<TaskType>)
    requires Ready(c, e) && Stalls(e, e.d) && !e.Inject? && !e.Start? && c.isRun
    requires if e.Dequeue? then m == m' + multiset{c.box.batch[0]} else m' == m + Gain(RequestOf(c.pc, e))
    requires e.PollRpc? ==> m[UpdateTorrentStatus] == 0
    requires Count(tasks') == if e.PollRpc? then 0 else Count(TasksOf(s, e.d)) + Bit(e.ReportRpc?)
    ensures var k := |UpdatesOf(s, e.d)|;
            var w, w' := Weight(TasksOf(s, e.d), m, c.pc, k), Weight(tasks', m', NextPc(c, s, e), k);
            w' == if e.PollRpc? then k * w else w
  {
    hide Count, TasksOf;
    var k, u, u' := |UpdatesOf(s, e.d)|, Unserved(m, c.pc), Unserved(m', NextPc(c, s, e));
    UnservedMoves(c, s, e, m, m');
    if e.UpdateRpc? {
      assert k * (u' + 1) == k * u' + k;
    } else if e.PollRpc? {
      assert u == 0 && k * u == 0;
    } else {
      assert u' == u;
    }
  }

  ghost predicate Steady(s: System, d: Id) {
    Base(s) && d in s.clients && PollsLast(s.clients[d].box, s.clients[d].pc)
  }

  lemma OwnServer(s: System, e: Event)
    requires Enabled(s, e) && Stalls(e, e.d) && !e.Inject? && !e.Start? && s.clients[e.d].isRun
    ensures var s' := Step(s, e);
            && UpdatesOf(s'.server, e.d) == UpdatesOf(s.server, e.d)
            && Count(TasksOf(s'.server, e.d)) ==
                 if e.PollRpc? then 0 else Count(TasksOf(s.server, e.d)) + Bit(e.ReportRpc?)
  {
    hide Book, Clients;
    if CallOf(s, e).Some? { CallCount(s.server, CallOf(s, e).value, e.d); }
  }

  lemma OwnStall(s: System, e: Event)
    requires Enabled(s, e) && Stalls(e, e.d) && !e.Inject? && !e.Start? && Steady(s, e.d)
    ensures var s', k := Step(s, e), |UpdatesOf(s.server, e.d)|;
            && UpdatesOf(s'.server, e.d) == UpdatesOf(s.server, e.d)
            && e.d in s'.clients && PollsLast(s'.clients[e.d].box, s'.clients[e.d].pc)
            && WeightOf(s', e.d) == if e.PollRpc? then k * WeightOf(s, e.d) else WeightOf(s, e.d)
  {
    hide After, Book, Count, NextBox, NextPc, Weight, Tasks, TokenRule;
    var c := s.clients[e.d];
    assert TokenKept(c);
    NextTasks(c.box, c.pc, e);
    LineMoves(c, s.server, e);
    OwnServer(s, e);
    if e.PollRpc? { NoneWaiting(c); }
    OwnWeight(c, s.server, e, Tasks(c.box), Tasks(NextBox(c.box, c.pc, e)), TasksOf(Step(s, e).server, e.d));
  }

  lemma NoneWaiting(c: Client)
    requires PollsLast(c.box, c.pc) && c.pc.AtPoll?
    ensures Tasks(c.box)[UpdateTorrentStatus] == 0
  {
    assert multiset(Line(c.box)) == multiset(c.box.batch) + multiset(c.box.queue);
    assert UpdateTorrentStatus !in multiset(Line(c.box));
  }

  lemma OtherStall(s: System, e: Event, d: Id)
    requires Enabled(s, e) && Stalls(e, d) && (e.d != d || e.Inject? || e.Start?) && d in s.clients
    ensures var s' := Step(s, e);
            && UpdatesOf(s'.server, d) == UpdatesOf(s.server, d)
            && d in s'.clients && s'.clients[d] == s.clients[d] && WeightOf(s', d) == WeightOf(s, d)
  {
    hide After, Book, Count, Moved;
    if CallOf(s, e).Some? {
      CallCount(s.server, CallOf(s, e).value, d);
      CallGrows(s.server, CallOf(s, e).value, d);
    }
  }

  lemma StallStep(s: System, e: Event, d: Id)
    requires Enabled(s, e) && Stalls(e, d) && Steady(s, d)
    ensures var s', k := Step(s, e), |UpdatesOf(s.server, d)|;
            && Steady(s', d) && UpdatesOf(s'.server, d) == UpdatesOf(s.server, d)
            && WeightOf(s', d) == if e == PollRpc(d) then k * WeightOf(s, d) else WeightOf(s, d)
  {
    hide Base, PollsLast, WeightOf, Enabled;
    StepKeepsBase(s, e);
    if e.d != d || e.Inject? || e.Start? { OtherStall(s, e, d); } else { OwnStall(s, e); }
  }

  lemma {:induction false} StallRun(s: System, run: seq<Event>, d: Id)
    requires Legal(s, run) && Stalled(run, d) && Steady(s, d)
    ensures var s', k := Final(s, run), |UpdatesOf(s.server, d)|;
            && Steady(s', d) && UpdatesOf(s'.server, d) == UpdatesOf(s.server, d)
            && WeightOf(s', d) == Power(k, Polls(run, d)) * WeightOf(s, d)
    decreases |run|
  {
    hide Steady, WeightOf;
    if run != [] {
      var s1, k, n := Step(s, run[0]), |UpdatesOf(s.server, d)|, Polls(run[1..], d);
      StallStep(s, run[0], d);
      StallRun(s1, run[1..], d);
      if run[0] == PollRpc(d) {
        assert Power(k, n) * (k * WeightOf(s, d)) == k * Power(k, n) * WeightOf(s, d);
      }
    }
  }

  /** The client holds no update task: all there are stand on the server. */
  predicate NoneInClient(s: System, d: Id) {
    d in s.clients && UpdateTorrentStatus !in Waiting(s, d) && InHand(s.clients[d].pc) == 0
  }

  /** However the daemons, timers and the environment interleave: while the `k` torrents a daemon has listed stay
      unfinished, each poll multiplies the update tasks the server holds for it by `k`. */
  lemma UpdatesMultiply(s: System, run: seq<Event>, d: Id)
    requires Legal(s, run) && Stalled(run, d) && Base(s)
    requires NoneInClient(s, d) && NoneInClient(Final(s, run), d)
    ensures var k, n := |UpdatesOf(s.server, d)|, Polls(run, d);
            Count(TasksOf(Final(s, run).server, d)) == Power(k, n) * Count(TasksOf(s.server, d))
  {
    var s' := Final(s, run);
    NoneSteady(s, d);
    StallRun(s, run, d);
    NoneWeight(s, d);
    NoneWeight(s', d);
  }

  lemma NoneSteady(s: System, d: Id)
    requires Base(s) && NoneInClient(s, d)
    ensures Steady(s, d)
  {
    var b := s.clients[d].box;
    NotInLine(b, UpdateTorrentStatus);
    assert multiset(b.deferred) <= Tasks(b);
    assert UpdateTorrentStatus !in multiset(b.deferred);
    forall i, j | 0 <= i < j < |Line(b)| && Line(b)[i] == UpdateTaskList ensures Line(b)[j] != UpdateTorrentStatus {
      assert Line(b)[j] in Line(b);
    }
  }

  lemma NoneWeight(s: System, d: Id)
    requires NoneInClient(s, d)
    ensures WeightOf(s, d) == Count(TasksOf(s.server, d))
  {
    var k, c := |UpdatesOf(s.server, d)|, s.clients[d];
    assert Unserved(Tasks(c.box), c.pc) == 0 && k * 0 == 0;
  }

  // ---- Such runs exist, for any number of polls ----

  ghost predicate Reached(s0: System, s: System, d: Id, polls: nat) {
    exists run :: Legal(s0, run) && Final(s0, run) == s && Stalled(run, d) && Polls(run, d) == polls
  }

  lemma {:induction false} PollsAppend(run: seq<Event>, e: Event, d: Id)
    ensures Polls(run + [e], d) == Polls(run, d) + Bit(e == PollRpc(d))
    decreases |run|
  {
    if run == [] {
      assert run + [e] == [e] && [e][1..] == [];
    } else {
      PollsAppend(run[1..], e, d);
      assert (run + [e])[1..] == run[1..] + [e];
    }
  }

  lemma Go(s0: System, s: System, e: Event, polls: nat) returns (s': System)
    requires Reached(s0, s, e.d, polls) && Enabled(s, e) && Stalls(e, e.d)
    ensures s' == Step(s, e) && Reached(s0, s', e.d, polls + Bit(e.PollRpc?))
  {
    s' := Step(s, e);
    var run :| Legal(s0, run) && Final(s0, run) == s && Stalled(run, e.d) && Polls(run, e.d) == polls;
    Extend(s0, run, e);
    PollsAppend(run, e, e.d);
    assert Stalled(run + [e], e.d);
  }

  /** What concerns daemon `d`: its client, its tasks on the server and its update list. */
  predicate Looks(s: System, d: Id, b: Box, pc: Pc, tasks: seq<TaskType>, updates: seq<Torrent>) {
    && d in s.clients && s.clients[d] == Client(true, true, b, pc)
    && TasksOf(s.server, d) == tasks && UpdatesOf(s.server, d) == updates
  }

  function UpdateTasks(n: nat): seq<TaskType> {
    seq(n, _ => UpdateTorrentStatus)
  }

  const BUSY := Snapshot("", "", Downloading, 50, "")

  lemma {:induction false} ReportAll(s0: System, s: System, d: Id, polls: nat, b: Box, left: seq<Torrent>, n: nat,
                                     updates: seq<Torrent>) returns (s': System)
    requires Reached(s0, s, d, polls) && Looks(s, d, b, Reporting(left), UpdateTasks(n), updates)
    ensures Reached(s0, s', d, polls) && Looks(s', d, b, Idle, UpdateTasks(n + |left|), updates)
    decreases |left|
  {
    hide Reached;
    if left == [] {
      s' := Go(s0, s, UpdateDone(d), polls);
    } else {
      s' := Go(s0, s, ReportRpc(d, BUSY, Walk(s.server.uuids)), polls);
      assert UpdateTasks(n) + [UpdateTorrentStatus] == UpdateTasks(n + 1);
      s' := ReportAll(s0, s', d, polls, b, left[1..], n + 1, updates);
    }
  }

  lemma {:induction false} RunBatch(s0: System, s: System, d: Id, polls: nat, b: Box, m: nat, n: nat,
                                    updates: seq<Torrent>) returns (s': System)
    requires b.batch == UpdateTasks(m)
    requires Reached(s0, s, d, polls) && Looks(s, d, b, Idle, UpdateTasks(n), updates)
    ensures Reached(s0, s', d, polls)
    ensures Looks(s', d, b.(batch := []), Idle, UpdateTasks(n + m * |updates|), updates)
    decreases m
  {
    hide Reached;
    if m == 0 {
      s' := s;
    } else {
      var b', k := b.(batch := UpdateTasks(m - 1)), |updates|;
      assert b.batch[1..] == UpdateTasks(m - 1);
      s' := Go(s0, s, Dequeue(d), polls);
      s' := Go(s0, s', UpdateRpc(d), polls);
      s' := ReportAll(s0, s', d, polls, b', updates, n, updates);
      s' := RunBatch(s0, s', d, polls, b', m - 1, n + k, updates);
      assert n + k + (m - 1) * k == n + m * k;
    }
  }

  lemma {:induction false} ReceiveAll(s0: System, s: System, d: Id, polls: nat, n: nat, todo: nat,
                                      updates: seq<Torrent>) returns (s': System)
    requires Reached(s0, s, d, polls)
    requires Looks(s, d, Box(UpdateTasks(n), [], []), Polled(UpdateTasks(todo)), [], updates)
    ensures Reached(s0, s', d, polls)
    ensures Looks(s', d, Box(UpdateTasks(n + todo), [], [UpdateTaskList]), Idle, [], updates)
    decreases todo
  {
    hide Reached;
    if todo == 0 {
      s' := Go(s0, s, PollDone(d), polls);
    } else {
      s' := Go(s0, s, PollAdd(d), polls);
      assert UpdateTasks(todo)[1..] == UpdateTasks(todo - 1);
      assert UpdateTasks(n) + [UpdateTorrentStatus] == UpdateTasks(n + 1);
      s' := ReceiveAll(s0, s', d, polls, n + 1, todo - 1, updates);
    }
  }

  /** Only the polling task waits in the client, and `n` update tasks stand on the server. */
  predicate Resting(s: System, d: Id, n: nat, updates: seq<Torrent>) {
    Looks(s, d, Box([], [], [UpdateTaskList]), Idle, UpdateTasks(n), updates)
  }

  /** From there to the poll, and the poll. */
  lemma Poll(s0: System, s: System, d: Id, polls: nat, n: nat, updates: seq<Torrent>) returns (s': System)
    requires Reached(s0, s, d, polls) && Resting(s, d, n, updates)
    ensures Reached(s0, s', d, polls + 1) && Looks(s', d, Box([], [], []), Polled(UpdateTasks(n)), [], updates)
  {
    hide Reached;
    s' := Go(s0, s, Fire(d, 0), polls);
    s' := Go(s0, s', TakeBatch(d), polls);
    s' := Go(s0, s', Dequeue(d), polls);
    s' := Go(s0, s', PollRpc(d), polls);
  }

  lemma Round(s0: System, s: System, d: Id, polls: nat, n: nat, updates: seq<Torrent>) returns (s': System)
    requires Reached(s0, s, d, polls) && Resting(s, d, n, updates)
    ensures Reached(s0, s', d, polls + 1) && Resting(s', d, n * |updates|, updates)
  {
    hide Reached;
    s' := Poll(s0, s, d, polls, n, updates);
    assert UpdateTasks(0) == [];
    s' := ReceiveAll(s0, s', d, polls + 1, 0, n, updates);
    if n > 0 {
      s' := Go(s0, s', TakeBatch(d), polls + 1);
      s' := RunBatch(s0, s', d, polls + 1, Box([], UpdateTasks(n), [UpdateTaskList]), n, 0, updates);
    }
  }

  lemma {:induction false} Rounds(s0: System, s: System, d: Id, polls: nat, n: nat, updates: seq<Torrent>, more: nat)
    returns (s': System)
    requires Reached(s0, s, d, polls) && Resting(s, d, n, updates)
    ensures Reached(s0, s', d, polls + more) && Resting(s', d, Power(|updates|, more) * n, updates)
    decreases more
  {
    hide Reached, Resting;
    if more == 0 {
      s' := s;
    } else {
      var k := |updates|;
      s' := Round(s0, s, d, polls, n, updates);
      s' := Rounds(s0, s', d, polls + 1, n * k, updates, more - 1);
      assert Power(k, more - 1) * (n * k) == k * Power(k, more - 1) * n;
    }
  }

  /** A resting daemon with `m` update tasks and `k` torrents that stay unfinished can have `m` times `k` to the `n`
      update tasks after `n` polls, for every `n`. */
  lemma UpdatesCanMultiply(s: System, d: Id, m: nat, n: nat) returns (s': System)
    requires Resting(s, d, m, UpdatesOf(s.server, d))
    ensures Reached(s, s', d, n)
    ensures TasksOf(s'.server, d) == UpdateTasks(Power(|UpdatesOf(s.server, d)|, n) * m)
  {
    assert Legal(s, []) && Final(s, []) == s && Stalled([], d) && Polls([], d) == 0;
    s' := Rounds(s, s, d, 0, m, UpdatesOf(s.server, d), n);
  }
}
