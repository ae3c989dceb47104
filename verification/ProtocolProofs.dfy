/** What every run of the system keeps. */
module ProtocolProofs {
  import opened Torrents
  import opened ServerSpec
  import opened Protocol

  /** Every task waiting in a client: queued, in the batch being worked off, or deferred. */
  function Tasks(b: Box): multiset<TaskType> {
    multiset(b.queue) + multiset(b.batch) + multiset(b.deferred)
  }

  /** The task being run will enqueue an UPDATE_TORRENT_STATUS task, is one, or still has to report
      every torrent in the daemon's update list. */
  predicate OwesUpdate(pc: Pc, updates: seq<Torrent>) {
    || pc.AtUpdate? || pc.Fetched? || pc.Ordered?
    || (pc.Polled? && UpdateTorrentStatus in pc.todo)
    || (pc.Reporting? && Ids(updates) <= Ids(pc.left))
  }

  predicate OwesDownload(pc: Pc) {
    pc.AtDownload? || (pc.Polled? && DownloadTorrent in pc.todo)
  }

  function Waiting(s: System, d: Id): multiset<TaskType> {
    if d in s.clients then Tasks(s.clients[d].box) else multiset{}
  }

  function PcOf(s: System, d: Id): Pc {
    if d in s.clients then s.clients[d].pc else Idle
  }

  /** An UPDATE_TORRENT_STATUS task for `d` is on the server, in d's client, or owed. */
  predicate UpdateAlive(s: System, d: Id) {
    || UpdateTorrentStatus in TasksOf(s.server, d)
    || UpdateTorrentStatus in Waiting(s, d)
    || OwesUpdate(PcOf(s, d), UpdatesOf(s.server, d))
  }

  /** A DOWNLOAD_TORRENT task for `d` is on the server, in d's client, or about to fetch. */
  predicate DownloadAlive(s: System, d: Id) {
    || DownloadTorrent in TasksOf(s.server, d)
    || DownloadTorrent in Waiting(s, d)
    || OwesDownload(PcOf(s, d))
  }

  /** A client's polling tokens, among its waiting tasks `m` and the task it is running. */
  function HandshakeTokens(m: multiset<TaskType>, pc: Pc): nat {
    m[MakeHandshake] + if pc.AtHandshake? || pc.Replied? then 1 else 0
  }

  function PollTokens(m: multiset<TaskType>, pc: Pc): nat {
    m[UpdateTaskList] + if pc.AtPoll? || pc.Polled? then 1 else 0
  }

  predicate TokenRule(m: multiset<TaskType>, pc: Pc, authed: bool) {
    && HandshakeTokens(m, pc) == (if authed then 0 else 1)
    && PollTokens(m, pc) == (if authed then 1 else 0)
    && (pc.Polled? ==> AllWork(pc.todo))
    && (!authed ==>
          && GenerateMagnet !in m && DownloadTorrent !in m && UpdateTorrentStatus !in m
          && (pc.Idle? || pc.AtHandshake? || pc.Replied?))
  }

  /** One client: exactly one polling token, of the kind its handshake allows; before the handshake
      reply is stored there is nothing else in it. */
  predicate TokenKept(c: Client) {
    c.isRun && TokenRule(Tasks(c.box), c.pc, c.authed)
  }

  predicate AllWork(list: seq<TaskType>) {
    forall i :: 0 <= i < |list| ==> IsWork(list[i])
  }

  ghost predicate OnlyWork(s: Server) {
    forall d :: AllWork(TasksOf(s, d))
  }

  predicate Registered(s: System, d: Id)
    requires d in s.clients
  {
    s.clients[d].authed || s.clients[d].pc == Replied(true) ==> d in s.server.uuids
  }

  predicate Covered(tasks: seq<TaskType>, updates: seq<Torrent>, fetchable: bool, m: multiset<TaskType>, pc: Pc) {
    && (updates != [] ==> UpdateTorrentStatus in tasks || UpdateTorrentStatus in m || OwesUpdate(pc, updates))
    && (fetchable ==> DownloadTorrent in tasks || DownloadTorrent in m || OwesDownload(pc))
  }

  /** Whatever the server lists for daemon `d`, the task that will deal with it is alive. */
  predicate Attended(s: System, d: Id) {
    Covered(TasksOf(s.server, d), UpdatesOf(s.server, d), d in s.server.downloads, Waiting(s, d), PcOf(s, d))
  }

  /** Kept by every step. */
  ghost predicate Base(s: System) {
    && Balanced(s.server, s.ledger)
    && OnlyWork(s.server)
    && (forall d :: d in s.clients ==> TokenKept(s.clients[d]) && Registered(s, d))
  }

  /** Kept by every step whose report is an atomic snapshot. */
  ghost predicate AllAttended(s: System) {
    forall d :: Attended(s, d)
  }

  // ---- What a handler call may do to a daemon other than the caller ----

  predicate Grows(s: Server, s': Server, d: Id) {
    && UpdatesOf(s', d) == UpdatesOf(s, d)
    && TasksOf(s, d) <= TasksOf(s', d)
    && (d in s'.downloads ==> d in s.downloads || DownloadTorrent in TasksOf(s', d))
    && s.uuids <= s'.uuids
  }

  lemma GrowsTrans(a: Server, b: Server, c: Server, d: Id)
    requires Grows(a, b, d) && Grows(b, c, d)
    ensures Grows(a, c, d)
  {
    assert forall k :: k in TasksOf(b, d) ==> k in TasksOf(c, d);
  }

  lemma AddTaskGrows(s: Server, x: Id, k: TaskType, d: Id)
    ensures Grows(s, AddTask(s, x, k), d)
    ensures OnlyWork(s) && IsWork(k) ==> OnlyWork(AddTask(s, x, k))
  {
    if OnlyWork(s) && IsWork(k) {
      forall y ensures AllWork(TasksOf(AddTask(s, x, k), y)) {
        assert AllWork(TasksOf(s, y));
      }
    }
  }

  lemma DispatchGrows(s: Server, x: Id, d: Id)
    ensures Grows(s, Dispatch(s, x), d)
    ensures OnlyWork(s) ==> OnlyWork(Dispatch(s, x))
    ensures x != d ==> (d in Dispatch(s, x).downloads <==> d in s.downloads)
  {
    if s.deque != [] {
      var s1 := s.(downloads := s.downloads[x := Upsert(DownloadsOf(s, x), s.deque[0])], deque := s.deque[1..]);
      AddTaskGrows(s1, x, DownloadTorrent, d);
      if OnlyWork(s) {
        forall y ensures AllWork(TasksOf(s1, y)) { assert TasksOf(s1, y) == TasksOf(s, y); }
      }
    }
  }

  lemma {:induction false} DispatchToOthersGrows(s: Server, x: Id, order: seq<Id>, d: Id)
    ensures Grows(s, DispatchToOthers(s, x, order), d)
    ensures OnlyWork(s) ==> OnlyWork(DispatchToOthers(s, x, order))
    ensures d == x ==> (d in DispatchToOthers(s, x, order).downloads <==> d in s.downloads)
    decreases |order|
  {
    if order != [] {
      var s1 := if order[0] == x then s else Dispatch(s, order[0]);
      DispatchGrows(s, order[0], d);
      DispatchToOthersGrows(s1, x, order[1..], d);
      GrowsTrans(s, s1, DispatchToOthers(s, x, order), d);
    }
  }

  /** The server as `Report` dispatches from it. */
  function Queued(s: Server, d: Id, t: Torrent): Server {
    RemoveUpdate(s.(deque := s.deque + [t]), d, t)
  }

  lemma ReportGrows(s: Server, x: Id, t: Torrent, order: seq<Id>, d: Id)
    requires x != d
    ensures Grows(s, Report(s, x, t, order), d)
  {
    AddTaskGrows(s, x, UpdateTorrentStatus, d);
    DispatchToOthersGrows(Queued(s, x, t), x, order, d);
    assert Grows(s, Queued(s, x, t), d) && Grows(s, RemoveUpdate(s, x, t), d);
    GrowsTrans(s, Queued(s, x, t), DispatchToOthers(Queued(s, x, t), x, order), d);
  }

  lemma SameTasksOnlyWork(s: Server, s': Server)
    requires OnlyWork(s) && s'.tasks == s.tasks
    ensures OnlyWork(s')
  {
    assert forall y :: TasksOf(s', y) == TasksOf(s, y);
  }

  lemma WelcomeGrows(s: Server, x: Id, d: Id)
    ensures var s2 := AddTask(AddTask(s, x, GenerateMagnet), x, UpdateTorrentStatus);
            Grows(s, s2, d) && (OnlyWork(s) ==> OnlyWork(s2))
  {
    var s1 := AddTask(s, x, GenerateMagnet);
    AddTaskGrows(s, x, GenerateMagnet, d);
    AddTaskGrows(s1, x, UpdateTorrentStatus, d);
    GrowsTrans(s, s1, AddTask(s1, x, UpdateTorrentStatus), d);
  }

  lemma HandshakeGrows(s: Server, x: Id, d: Id)
    ensures Grows(s, Handshake(s, x), d)
    ensures OnlyWork(s) ==> OnlyWork(Handshake(s, x))
  {
    var s1 := s.(uuids := s.uuids + {x});
    if OnlyWork(s) { SameTasksOnlyWork(s, s1); }
    if s.first {
      WelcomeGrows(s1, x, d);
      var s2 := AddTask(AddTask(s1, x, GenerateMagnet), x, UpdateTorrentStatus);
      if OnlyWork(s) { SameTasksOnlyWork(s2, s2.(first := false)); }
    } else {
      DispatchGrows(s1, x, d);
    }
  }

  /** No call made by one daemon touches another's update list, takes a task from it, or gives it
      a download without the task to fetch it. */
  lemma CallGrows(s: Server, c: Call, d: Id)
    requires c.d != d || c.CallAddTask? || c.CallHandshake?
    ensures Grows(s, After(s, c), d)
  {
    match c
    case CallAddTask(x, k) => AddTaskGrows(s, x, k, d);
    case CallHandshake(x) => HandshakeGrows(s, x, d);
    case CallReport(x, t, order) => ReportGrows(s, x, t, order, d);
    case CallDownloads(x) =>
      if x in s.downloads {
        AddTaskGrows(AddUpdates(s, x, s.downloads[x]).(downloads := s.downloads - {x}), x, UpdateTorrentStatus, d);
      }
    case _ =>
  }

  lemma CallOnlyWork(s: Server, c: Call)
    requires OnlyWork(s) && (c.CallAddTask? ==> IsWork(c.k))
    ensures OnlyWork(After(s, c))
  {
    match c
    case CallAddTask(x, k) => AddTaskGrows(s, x, k, x);
    case CallHandshake(x) => HandshakeGrows(s, x, x);
    case CallReport(x, t, order) =>
      AddTaskGrows(s, x, UpdateTorrentStatus, x);
      SameTasksOnlyWork(s, RemoveUpdate(s, x, t));
      SameTasksOnlyWork(s, Queued(s, x, t));
      DispatchToOthersGrows(Queued(s, x, t), x, order, x);
    case CallTasks(x) => assert forall y :: y != x ==> TasksOf(TakeTasks(s, x), y) == TasksOf(s, y);
    case CallOrder(x, newId) => SameTasksOnlyWork(s, TakeOrder(s, x, newId));
    case CallUpdates(x) =>
    case CallDownloads(x) =>
      if x in s.downloads {
        var s1 := AddUpdates(s, x, s.downloads[x]).(downloads := s.downloads - {x});
        SameTasksOnlyWork(s, s1);
        AddTaskGrows(s1, x, UpdateTorrentStatus, x);
      }
  }

  lemma GrowsAttended(s: System, s': System, d: Id)
    requires Attended(s, d) && Grows(s.server, s'.server, d)
    requires Waiting(s, d) <= Waiting(s', d)
    requires PcOf(s', d) == PcOf(s, d)
    ensures Attended(s', d)
  {
    assert forall k :: k in TasksOf(s.server, d) ==> k in TasksOf(s'.server, d);
    assert forall k :: k in Waiting(s, d) ==> k in Waiting(s', d);
  }

  // ---- What a step does to the daemon that takes it ----

  function Gain(r: Request): multiset<TaskType> {
    if r.Nothing? then multiset{} else multiset{r.k}
  }

  lemma DequeueTasks(b: Box, pc: Pc, e: Event)
    requires e.Dequeue? && b.batch != []
    ensures Tasks(b) == Tasks(NextBox(b, pc, e)) + multiset{b.batch[0]}
  {
    assert b.batch == [b.batch[0]] + b.batch[1..];
  }

  lemma FireTasks(b: Box, pc: Pc, e: Event)
    requires e.Fire?
    ensures Tasks(NextBox(b, pc, e)) == Tasks(b)
  {
    if e.i < |b.deferred| {
      assert b.deferred == b.deferred[..e.i] + [b.deferred[e.i]] + b.deferred[e.i + 1..];
    }
  }

  lemma TakeBatchTasks(b: Box, pc: Pc, e: Event)
    requires e.TakeBatch?
    ensures Tasks(NextBox(b, pc, e)) == Tasks(b)
  {
  }

  lemma ServedTasks(b: Box, r: Request)
    ensures Tasks(Served(b, r)) == Tasks(b) + Gain(r)
  {
  }

  /** Tasks leave a client's lists only to be run, and enter them only on request. */
  lemma NextTasks(b: Box, pc: Pc, e: Event)
    ensures !e.Dequeue? ==> Tasks(NextBox(b, pc, e)) == Tasks(b) + Gain(RequestOf(pc, e))
    ensures e.Dequeue? && b.batch != [] ==> Tasks(b) == Tasks(NextBox(b, pc, e)) + multiset{b.batch[0]}
  {
    if e.Dequeue? {
      if b.batch != [] { DequeueTasks(b, pc, e); }
    } else if e.Fire? {
      FireTasks(b, pc, e);
    } else if e.TakeBatch? {
      TakeBatchTasks(b, pc, e);
    } else {
      ServedTasks(b, RequestOf(pc, e));
    }
  }

  lemma BeginRule(m: multiset<TaskType>, k: TaskType, authed: bool)
    requires TokenRule(m + multiset{k}, Idle, authed)
    ensures TokenRule(m, Begin(k), authed)
  {
  }

  lemma EndRule(m: multiset<TaskType>, pc: Pc, authed: bool)
    requires TokenRule(m, pc, authed)
    ensures pc.Replied? ==> TokenRule(m + multiset{UpdateTaskList}, Idle, true)
    ensures pc.Replied? ==> TokenRule(m + multiset{MakeHandshake}, Idle, authed)
    ensures pc == Polled([]) ==> TokenRule(m + multiset{UpdateTaskList}, Idle, authed)
    ensures pc.Polled? && pc.todo != [] ==> TokenRule(m + multiset{pc.todo[0]}, Polled(pc.todo[1..]), authed)
    ensures pc.Fetched? || pc.Ordered? ==> TokenRule(m + multiset{UpdateTorrentStatus}, Idle, authed)
  {
  }

  lemma {:induction false} TokenStep(c: Client, s: Server, e: Event)
    requires Ready(c, e) && TokenKept(c) && AllWork(TasksOf(s, e.d))
    ensures TokenKept(Moved(c, s, e))
  {
    NextTasks(c.box, c.pc, e);
    TokenRuleStep(c, s, e, Tasks(c.box), Tasks(Moved(c, s, e).box));
  }

  lemma TokenRuleStep(c: Client, s: Server, e: Event, m: multiset<TaskType>, m': multiset<TaskType>)
    requires Ready(c, e) && TokenRule(m, c.pc, c.authed) && AllWork(TasksOf(s, e.d)) && c.isRun
    requires if e.Dequeue? then m == m' + multiset{c.box.batch[0]} else m' == m + Gain(RequestOf(c.pc, e))
    ensures TokenRule(m', NextPc(c, s, e), Moved(c, s, e).authed)
  {
    if e.Dequeue? {
      BeginRule(m', c.box.batch[0], c.authed);
    } else if RequestOf(c.pc, e).Nothing? {
      assert m' == m;
    } else {
      EndRule(m, c.pc, c.authed);
    }
  }

  // ---- A step keeps its own daemon attended ----

  lemma IdsNonEmpty(list: seq<Torrent>)
    requires list != []
    ensures list[0].id in Ids(list)
  {
  }

  predicate IsLocal(e: Event) {
    || e.TakeBatch? || e.Dequeue? || e.Fire? || e.HandshakeDone? || e.PollAdd? || e.PollDone?
    || e.DownloadDone? || e.UpdateDone? || e.CreateDone? || (e.DownloadOne? && !e.failed)
  }

  lemma LocalStepCovered(c: Client, s: Server, e: Event, m: multiset<TaskType>, m': multiset<TaskType>,
                         tasks: seq<TaskType>, updates: seq<Torrent>, fetchable: bool)
    requires Ready(c, e) && IsLocal(e) && Covered(tasks, updates, fetchable, m, c.pc)
    requires if e.Dequeue? then m == m' + multiset{c.box.batch[0]} else m' == m + Gain(RequestOf(c.pc, e))
    ensures Covered(tasks, updates, fetchable, m', NextPc(c, s, e))
  {
    if e.UpdateDone? && updates != [] { IdsNonEmpty(updates); }
    if e.PollAdd? { assert c.pc.todo == [c.pc.todo[0]] + c.pc.todo[1..]; }
  }

  /** The status means the daemon is finished with the torrent. */
  predicate Finishes(t: Torrent) {
    t.status.Downloaded? || (t.status.Generated? && t.link != "")
  }

  /** What a report does to the reporting daemon's own entries. */
  lemma ReportOwn(s: Server, d: Id, t: Torrent, order: seq<Id>)
    ensures var s' := Report(s, d, t, order);
            && TasksOf(s, d) <= TasksOf(s', d)
            && (d in s'.downloads <==> d in s.downloads)
            && UpdatesOf(s', d) == (if Finishes(t) then Remove(UpdatesOf(s, d), t) else UpdatesOf(s, d))
            && (Finishes(t) || t.status.Generated? || UpdateTorrentStatus in TasksOf(s', d))
  {
    if t.status.Generated? {
      var q := Queued(s, d, t);
      DispatchToOthersGrows(q, d, order, d);
      assert TasksOf(q, d) == TasksOf(s, d) && UpdatesOf(q, d) == Remove(UpdatesOf(s, d), t);
    }
  }

  lemma ReportCovered(s: Server, d: Id, t: Torrent, order: seq<Id>, m: multiset<TaskType>, left: seq<Torrent>)
    requires UniqueLists(s) && left != [] && left[0].id == t.id
    requires t.status.Generated? ==> t.link != ""
    requires Covered(TasksOf(s, d), UpdatesOf(s, d), d in s.downloads, m, Reporting(left))
    ensures var s' := Report(s, d, t, order);
            Covered(TasksOf(s', d), UpdatesOf(s', d), d in s'.downloads, m, Reporting(left[1..]))
  {
    var s' := Report(s, d, t, order);
    ReportOwn(s, d, t, order);
    assert forall k :: k in TasksOf(s, d) ==> k in TasksOf(s', d);
    if Finishes(t) {
      RemoveRefines(UpdatesOf(s, d), t);
    }
  }

  /** The steps that make a call and stay inside a task which owes nothing, or owes it all. */
  lemma CallStepCovered(c: Client, s: Server, s': Server, e: Event, m: multiset<TaskType>)
    requires Ready(c, e) && c.isRun && Covered(TasksOf(s, e.d), UpdatesOf(s, e.d), e.d in s.downloads, m, c.pc)
    requires
      || (e.HandshakeRpc? && (s' == s || s' == Handshake(s, e.d)))
      || (e.PollRpc? && s' == TakeTasks(s, e.d))
      || (e.DownloadRpc? && s' == TakeDownloads(s, e.d))
      || (e.DownloadOne? && exists t, order :: s' == Report(s, e.d, t, order))
      || (e.UpdateRpc? && s' == s)
      || (e.CreateRpc? && s' == TakeOrder(s, e.d, e.newId))
    ensures Covered(TasksOf(s', e.d), UpdatesOf(s', e.d), e.d in s'.downloads, m, NextPc(c, s, e))
  {
    if e.HandshakeRpc? {
      HandshakeGrows(s, e.d, e.d);
      assert forall k :: k in TasksOf(s, e.d) ==> k in TasksOf(s', e.d);
    } else if e.DownloadOne? {
      var t, order :| s' == Report(s, e.d, t, order);
      ReportOwn(s, e.d, t, order);
      assert forall k :: k in TasksOf(s, e.d) ==> k in TasksOf(s', e.d);
    }
  }

  // ---- Every step keeps the invariant ----

  lemma {:induction false} LocalAttended(s: System, e: Event)
    requires Enabled(s, e) && IsLocal(e) && Attended(s, e.d)
    ensures Attended(Step(s, e), e.d)
  {
    var c, s' := s.clients[e.d], Step(s, e);
    NextTasks(c.box, c.pc, e);
    LocalStepCovered(c, s.server, e, Tasks(c.box), Tasks(s'.clients[e.d].box),
                     TasksOf(s.server, e.d), UpdatesOf(s.server, e.d), e.d in s.server.downloads);
  }

  lemma ReportAttended(s: System, e: Event)
    requires Enabled(s, e) && e.ReportRpc? && Linked(e) && Attended(s, e.d) && UniqueLists(s.server)
    ensures Attended(Step(s, e), e.d)
  {
    var c := s.clients[e.d];
    ReportCovered(s.server, e.d, Described(c.pc.left[0], e.now), e.order, Tasks(c.box), c.pc.left);
  }

  lemma {:induction false} CallAttended(s: System, e: Event)
    requires Enabled(s, e) && !e.Start? && !e.Inject? && !IsLocal(e) && !e.ReportRpc?
    requires Attended(s, e.d) && s.clients[e.d].isRun
    ensures Attended(Step(s, e), e.d)
  {
    CallStepCovered(s.clients[e.d], s.server, Step(s, e).server, e, Waiting(s, e.d));
  }

  lemma OtherAttended(s: System, e: Event, d: Id)
    requires Enabled(s, e) && Attended(s, d) && (d != e.d || e.Start? || e.Inject?)
    requires e.Start? ==> Waiting(s, d) == multiset{} || e.d != d || d in s.clients
    ensures Attended(Step(s, e), d)
  {
    var s' := Step(s, e);
    if CallOf(s, e).Some? {
      CallGrows(s.server, CallOf(s, e).value, d);
    }
    GrowsAttended(s, s', d);
  }

  lemma {:induction false} ActorKept(s: System, e: Event)
    requires Enabled(s, e) && !e.Start? && !e.Inject? && OnlyWork(s.server)
    requires TokenKept(s.clients[e.d]) && Registered(s, e.d)
    ensures TokenKept(Step(s, e).clients[e.d]) && Registered(Step(s, e), e.d)
  {
    assert AllWork(TasksOf(s.server, e.d));
    TokenStep(s.clients[e.d], s.server, e);
    UuidsGrow(s, e);
  }

  lemma StarterKept(s: System, e: Event)
    requires e.Start? && e.d !in s.clients
    ensures TokenKept(Step(s, e).clients[e.d]) && Registered(Step(s, e), e.d)
  {
    assert Tasks(Started().box) == multiset{MakeHandshake};
  }

  lemma UuidsGrow(s: System, e: Event)
    requires Enabled(s, e)
    ensures s.server.uuids <= Step(s, e).server.uuids
    ensures e.HandshakeRpc? && e.reached ==> e.d in Step(s, e).server.uuids
  {
    if CallOf(s, e).Some? {
      CallGrows(s.server, CallOf(s, e).value, e.d + "'");
    }
  }

  lemma {:induction false} StepKeepsBase(s: System, e: Event)
    requires Enabled(s, e) && Base(s)
    ensures Base(Step(s, e))
  {
    var s' := Step(s, e);
    if CallOf(s, e).Some? {
      CallBalanced(s.server, s.ledger, CallOf(s, e).value);
      CallOnlyWork(s.server, CallOf(s, e).value);
    }
    forall d | d in s'.clients ensures TokenKept(s'.clients[d]) && Registered(s', d) {
      if d == e.d && !e.Start? && !e.Inject? { ActorKept(s, e); }
      else if d !in s.clients { StarterKept(s, e); }
      else { UuidsGrow(s, e); }
    }
  }

  lemma StepKeepsAttended(s: System, e: Event)
    requires Enabled(s, e) && Base(s) && AllAttended(s) && Linked(e)
    ensures AllAttended(Step(s, e))
  {
    forall d ensures Attended(Step(s, e), d) {
      assert Attended(s, d);
      if d != e.d || e.Start? || e.Inject? { OtherAttended(s, e, d); }
      else if IsLocal(e) { LocalAttended(s, e); }
      else if e.ReportRpc? { ReportAttended(s, e); }
      else { CallAttended(s, e); }
    }
  }

  lemma {:induction false} RunKeepsBase(s: System, run: seq<Event>)
    requires Legal(s, run) && Base(s)
    ensures Base(Final(s, run))
    decreases |run|
  {
    hide Base;
    if run != [] {
      StepKeepsBase(s, run[0]);
      RunKeepsBase(Step(s, run[0]), run[1..]);
    }
  }

  lemma {:induction false} RunKeepsAttended(s: System, run: seq<Event>)
    requires Legal(s, run) && Base(s) && AllAttended(s) && forall i :: 0 <= i < |run| ==> Linked(run[i])
    ensures AllAttended(Final(s, run))
    decreases |run|
  {
    hide Base, AllAttended;
    if run != [] {
      StepKeepsBase(s, run[0]);
      StepKeepsAttended(s, run[0]);
      RunKeepsAttended(Step(s, run[0]), run[1..]);
    }
  }
}
