/** No reachable state is a trap: a daemon left to its own steps can finish every torrent handed to it. */
module ProtocolProgress {
  import opened Common
  import opened Torrents
  import opened ServerSpec
  import opened Walking
  import opened Protocol
  import opened ProtocolProofs

  /** A step of this daemon's own tasks, worker or timer, with an honest report. */
  predicate OwnStep(e: Event, d: Id) {
    e.d == d && !e.Start? && !e.Inject? && Linked(e)
  }

  ghost predicate Good(s: System, d: Id) {
    Base(s) && AllAttended(s) && d in s.clients
  }

  predicate AllOwn(run: seq<Event>, d: Id) {
    forall e :: e in run ==> OwnStep(e, d)
  }

  /** What the daemon's own steps never undo, once its handshake is done. */
  ghost predicate Keeps(s: System, s': System, d: Id) {
    d in s.clients && d in s'.clients && (s.clients[d].authed ==>
      && s'.clients[d].authed
      && Ids(DownloadsOf(s'.server, d)) <= Ids(DownloadsOf(s.server, d))
      && forall x :: (d, x) in s'.ledger.open ==> (d, x) in s.ledger.open)
  }

  /** `d` can get from one state to the other by steps of its own. */
  ghost predicate Path(s: System, s': System, d: Id) {
    && Good(s', d) && Keeps(s, s', d)
    && exists run :: Legal(s, run) && AllOwn(run, d) && Final(s, run) == s'
  }

  lemma {:induction false} Join(s: System, run: seq<Event>, more: seq<Event>)
    requires Legal(s, run) && Legal(Final(s, run), more)
    ensures Legal(s, run + more) && Final(s, run + more) == Final(Final(s, run), more)
    decreases |run|
  {
    if run == [] {
      assert run + more == more;
    } else {
      Join(Step(s, run[0]), run[1..], more);
      assert (run + more)[1..] == run[1..] + more;
    }
  }

  lemma PathTrans(a: System, b: System, c: System, d: Id)
    requires Path(a, b, d) && Path(b, c, d)
    ensures Path(a, c, d)
  {
    hide Base, AllAttended;
    var run :| Legal(a, run) && AllOwn(run, d) && Final(a, run) == b;
    var more :| Legal(b, more) && AllOwn(more, d) && Final(b, more) == c;
    Join(a, run, more);
    assert AllOwn(run + more, d);
  }

  lemma PathSelf(s: System, d: Id)
    requires Good(s, d)
    ensures Path(s, s, d)
  {
    hide Base, AllAttended;
    assert Legal(s, []) && Final(s, []) == s && AllOwn([], d);
  }

  // ---- What reports by `d` do to d's own hand-outs ----

  lemma {:induction false} OthersOnly(s: Server, l: Ledger, d: Id, order: seq<Id>)
    ensures DownloadsOf(DispatchToOthers(s, d, order), d) == DownloadsOf(s, d)
    ensures forall x :: (d, x) in BookDispatchToOthers(s, l, d, order).open ==> (d, x) in l.open
    decreases |order|
  {
    if order != [] {
      if order[0] == d { OthersOnly(s, l, d, order[1..]); }
      else { OthersOnly(Dispatch(s, order[0]), BookDispatch(s, l, order[0]), d, order[1..]); }
    }
  }

  lemma ReportKeepsOwn(s: Server, l: Ledger, d: Id, t: Torrent, order: seq<Id>)
    ensures DownloadsOf(Report(s, d, t, order), d) == DownloadsOf(s, d)
    ensures forall x :: (d, x) in Book(s, l, CallReport(d, t, order)).open ==> (d, x) in l.open
  {
    if t.status.Generated? && t.link != "" {
      var l1 := l.(pushed := l.pushed + [t], open := l.open - {(d, t.id)});
      OthersOnly(Queued(s, d, t), l1, d, order);
    }
  }

  /** No call by `d` but a handshake gives `d` anything new. */
  lemma OwnCallKeeps(s: Server, l: Ledger, c: Call)
    requires !c.CallHandshake?
    ensures Ids(DownloadsOf(After(s, c), c.d)) <= Ids(DownloadsOf(s, c.d))
    ensures forall x :: (c.d, x) in Book(s, l, c).open ==> (c.d, x) in l.open
  {
    if c.CallReport? { ReportKeepsOwn(s, l, c.d, c.t, c.order); }
  }

  lemma HandshakeMeansNew(s: System, e: Event)
    requires Base(s) && Enabled(s, e) && e.HandshakeRpc?
    ensures !s.clients[e.d].authed
  {
    assert TokenKept(s.clients[e.d]);
  }

  lemma {:induction false} OwnStepKeeps(s: System, e: Event)
    requires Good(s, e.d) && Enabled(s, e) && OwnStep(e, e.d)
    ensures Keeps(s, Step(s, e), e.d)
  {
    hide Base, AllAttended;
    if e.HandshakeRpc? {
      HandshakeMeansNew(s, e);
    } else if CallOf(s, e).Some? {
      OwnCallKeeps(s.server, s.ledger, CallOf(s, e).value);
    }
  }

  /** One own step, with what it does to the daemon and the server. */
  lemma PathStep(s: System, e: Event) returns (s': System)
    requires Good(s, e.d) && Enabled(s, e) && OwnStep(e, e.d)
    ensures Path(s, s', e.d)
    ensures e.d in s'.clients && s'.clients[e.d] == Moved(s.clients[e.d], s.server, e)
    ensures var call := CallOf(s, e);
            && s'.server == (if call.Some? then After(s.server, call.value) else s.server)
            && s'.ledger == (if call.Some? then Book(s.server, s.ledger, call.value) else s.ledger)
  {
    hide Base, AllAttended, Keeps;
    s' := Step(s, e);
    StepKeepsBase(s, e);
    StepKeepsAttended(s, e);
    OwnStepKeeps(s, e);
    assert [e][1..] == [] && Legal(s', []);
    assert Legal(s, [e]) && Final(s, [e]) == s' && AllOwn([e], e.d);
  }

  // ---- Finishing the task being run ----

  /** The client `d` in `s'` has the batch it had, and has lost nothing it had queued or deferred. */
  predicate Grown(s: System, s': System, d: Id) {
    d in s.clients && d in s'.clients &&
    var b, b' := s.clients[d].box, s'.clients[d].box;
    b'.batch == b.batch && b.queue <= b'.queue && b.deferred <= b'.deferred
  }

  predicate IsIdle(s: System, d: Id) {
    d in s.clients && s.clients[d].pc.Idle?
  }

  const DONE := Snapshot("", "", Downloaded, 0, "")

  lemma {:induction false} FinishPolled(s: System, d: Id) returns (s': System)
    requires Good(s, d) && s.clients[d].pc.Polled?
    ensures Path(s, s', d) && IsIdle(s', d) && Grown(s, s', d) && s'.server == s.server
    decreases |s.clients[d].pc.todo|
  {
    hide Base, AllAttended, Keeps;
    if s.clients[d].pc.todo == [] {
      s' := PathStep(s, PollDone(d));
    } else {
      var mid := PathStep(s, PollAdd(d));
      s' := FinishPolled(mid, d);
      PathTrans(s, mid, s', d);
    }
  }

  lemma {:induction false} FinishFetched(s: System, d: Id) returns (s': System)
    requires Good(s, d) && s.clients[d].pc.Fetched?
    ensures Path(s, s', d) && IsIdle(s', d) && Grown(s, s', d) && s'.server == s.server
    decreases |s.clients[d].pc.starting|
  {
    hide Base, AllAttended, Keeps;
    if s.clients[d].pc.starting == [] {
      s' := PathStep(s, DownloadDone(d));
    } else {
      var mid := PathStep(s, DownloadOne(d, false, []));
      s' := FinishFetched(mid, d);
      PathTrans(s, mid, s', d);
    }
  }

  lemma OneDoneReport(s: System, d: Id) returns (mid: System)
    requires Good(s, d) && s.clients[d].pc.Reporting? && s.clients[d].pc.left != []
    ensures Path(s, mid, d) && Grown(s, mid, d)
    ensures mid.clients[d].authed && mid.clients[d].pc == Reporting(s.clients[d].pc.left[1..])
    ensures (d, s.clients[d].pc.left[0].id) !in mid.ledger.open
  {
    hide AllAttended, Keeps;
    assert TokenKept(s.clients[d]);
    mid := PathStep(s, ReportRpc(d, DONE, Walk(s.server.uuids)));
  }

  /** Every torrent still to be reported is reported as downloaded. */
  lemma {:induction false} FinishReporting(s: System, d: Id) returns (s': System)
    requires Good(s, d) && s.clients[d].pc.Reporting?
    ensures Path(s, s', d) && IsIdle(s', d) && Grown(s, s', d)
    ensures forall x :: x in Ids(s.clients[d].pc.left) ==> (d, x) !in s'.ledger.open
    decreases |s.clients[d].pc.left|
  {
    hide Base, AllAttended;
    if s.clients[d].pc.left == [] {
      s' := PathStep(s, UpdateDone(d));
    } else {
      var mid := OneDoneReport(s, d);
      s' := FinishReporting(mid, d);
      PathTrans(s, mid, s', d);
    }
  }

  lemma FinishAtHandshake(s: System, d: Id) returns (s': System)
    requires Good(s, d) && s.clients[d].pc.AtHandshake?
    ensures Path(s, s', d) && IsIdle(s', d) && Grown(s, s', d) && s'.clients[d].authed
  {
    hide Base, AllAttended, Keeps;
    var mid := PathStep(s, HandshakeRpc(d, true, true));
    s' := PathStep(mid, HandshakeDone(d));
    PathTrans(s, mid, s', d);
  }

  lemma FinishAtPoll(s: System, d: Id) returns (s': System)
    requires Good(s, d) && s.clients[d].pc.AtPoll?
    ensures Path(s, s', d) && IsIdle(s', d) && Grown(s, s', d) && TasksOf(s'.server, d) == []
  {
    hide AllAttended, Keeps;
    assert TokenKept(s.clients[d]);
    var mid := PathStep(s, PollRpc(d));
    s' := FinishPolled(mid, d);
    PathTrans(s, mid, s', d);
  }

  lemma FinishAtDownload(s: System, d: Id) returns (s': System)
    requires Good(s, d) && s.clients[d].pc.AtDownload?
    ensures Path(s, s', d) && IsIdle(s', d) && Grown(s, s', d) && d !in s'.server.downloads
  {
    hide Base, AllAttended, Keeps;
    var mid := PathStep(s, DownloadRpc(d));
    s' := FinishFetched(mid, d);
    PathTrans(s, mid, s', d);
  }

  lemma FinishAtUpdate(s: System, d: Id) returns (s': System)
    requires Good(s, d) && s.clients[d].pc.AtUpdate?
    ensures Path(s, s', d) && IsIdle(s', d) && Grown(s, s', d)
    ensures forall x :: x in Ids(UpdatesOf(s.server, d)) ==> (d, x) !in s'.ledger.open
  {
    hide Base, AllAttended, Keeps;
    var mid := PathStep(s, UpdateRpc(d));
    s' := FinishReporting(mid, d);
    PathTrans(s, mid, s', d);
  }

  lemma FinishAtCreate(s: System, d: Id) returns (s': System)
    requires Good(s, d) && s.clients[d].pc.AtCreate?
    ensures Path(s, s', d) && IsIdle(s', d) && Grown(s, s', d)
  {
    hide Base, AllAttended, Keeps;
    var mid := PathStep(s, CreateRpc(d, ""));
    s' := PathStep(mid, CreateDone(d));
    PathTrans(s, mid, s', d);
  }

  lemma FinishStarted(s: System, d: Id) returns (s': System)
    requires Good(s, d)
    requires var pc := s.clients[d].pc; pc.Replied? || pc.Polled? || pc.Fetched? || pc.Reporting? || pc.Ordered?
    ensures Path(s, s', d) && IsIdle(s', d) && Grown(s, s', d)
  {
    hide Base, AllAttended, Keeps;
    match s.clients[d].pc
    case Replied(_) => s' := PathStep(s, HandshakeDone(d));
    case Polled(_) => s' := FinishPolled(s, d);
    case Fetched(_) => s' := FinishFetched(s, d);
    case Reporting(_) => s' := FinishReporting(s, d);
    case Ordered => s' := PathStep(s, CreateDone(d));
  }

  lemma {:induction false} FinishTask(s: System, d: Id) returns (s': System)
    requires Good(s, d)
    ensures Path(s, s', d) && IsIdle(s', d) && Grown(s, s', d)
  {
    hide Base, AllAttended, Keeps;
    match s.clients[d].pc
    case Idle => s' := s; PathSelf(s, d);
    case AtHandshake => s' := FinishAtHandshake(s, d);
    case AtPoll => s' := FinishAtPoll(s, d);
    case AtDownload => s' := FinishAtDownload(s, d);
    case AtUpdate => s' := FinishAtUpdate(s, d);
    case AtCreate => s' := FinishAtCreate(s, d);
    case _ => s' := FinishStarted(s, d);
  }

  // ---- Getting a waiting task to run ----

  predicate Holds(s: System, d: Id, k: TaskType) {
    d in s.clients && k in Tasks(s.clients[d].box)
  }

  function Stage(b: Box, k: TaskType): nat {
    if k in b.batch then 1 else if k in b.queue then 2 else 3
  }

  /** The task is closer to being run than it was. */
  predicate Closer(b: Box, b': Box, k: TaskType) {
    k in Tasks(b') && (Stage(b', k) < Stage(b, k) || (Stage(b', k) == Stage(b, k) && |b'.batch| < |b.batch|))
  }

  lemma DequeueMoves(b: Box, k: TaskType, e: Event)
    requires k in Tasks(b) && b.batch != [] && e.Dequeue? && b.batch[0] != k
    ensures Closer(b, NextBox(b, Idle, e), k)
  {
    assert b.batch == [b.batch[0]] + b.batch[1..];
    assert k in b.batch <==> k in b.batch[1..];
  }

  lemma TakeBatchMoves(b: Box, k: TaskType, e: Event)
    requires b.batch == [] && k in b.queue && e.TakeBatch?
    ensures Closer(b, NextBox(b, Idle, e), k)
  {
  }

  lemma FireMoves(b: Box, k: TaskType, e: Event)
    requires b.batch == [] && k !in b.queue && e.Fire? && e.i < |b.deferred| && b.deferred[e.i] == k
    ensures Closer(b, NextBox(b, Idle, e), k)
  {
    assert k in b.queue + [b.deferred[e.i]];
  }

  /** The worker's next move either starts task `k` or brings it closer. */
  lemma MoveTowards(s: System, d: Id, k: TaskType) returns (s': System)
    requires Good(s, d) && Holds(s, d, k) && IsIdle(s, d)
    ensures Path(s, s', d)
    ensures s'.clients[d].pc != Begin(k) ==> Closer(s.clients[d].box, s'.clients[d].box, k)
  {
    hide Base, AllAttended, Keeps, Closer, Stage;
    var b := s.clients[d].box;
    if b.batch != [] {
      s' := PathStep(s, Dequeue(d));
      if b.batch[0] != k { DequeueMoves(b, k, Dequeue(d)); }
    } else if k in b.queue {
      s' := PathStep(s, TakeBatch(d));
      TakeBatchMoves(b, k, TakeBatch(d));
    } else {
      var i :| 0 <= i < |b.deferred| && b.deferred[i] == k;
      s' := PathStep(s, Fire(d, i));
      FireMoves(b, k, Fire(d, i));
    }
  }

  lemma GrownHolds(s: System, s': System, d: Id, k: TaskType)
    requires Holds(s, d, k) && Grown(s, s', d)
    ensures Holds(s', d, k) && Stage(s'.clients[d].box, k) <= Stage(s.clients[d].box, k)
  {
    var b, b' := s.clients[d].box, s'.clients[d].box;
    assert k in b.queue ==> k in b'.queue;
    assert k in b.deferred ==> k in b'.deferred;
  }

  /** A task waiting anywhere in the client can be brought to run. */
  lemma {:induction false} Drive(s: System, d: Id, k: TaskType) returns (s': System)
    requires Good(s, d) && Holds(s, d, k)
    ensures Path(s, s', d) && s'.clients[d].pc == Begin(k)
    decreases Stage(s.clients[d].box, k), |s.clients[d].box.batch|, !s.clients[d].pc.Idle?
  {
    hide Base, AllAttended, Keeps;
    var mid;
    if s.clients[d].pc.Idle? {
      mid := MoveTowards(s, d, k);
      if mid.clients[d].pc == Begin(k) { return mid; }
    } else {
      mid := FinishTask(s, d);
      GrownHolds(s, mid, d, k);
    }
    s' := Drive(mid, d, k);
    PathTrans(s, mid, s', d);
  }

  // ---- Finishing what has been handed out ----

  // What an idle daemon must have waiting, by the invariants.

  lemma IdleHoldsToken(s: System, d: Id)
    requires Good(s, d) && IsIdle(s, d)
    ensures Holds(s, d, if s.clients[d].authed then UpdateTaskList else MakeHandshake)
  {
    hide AllAttended;
    assert TokenKept(s.clients[d]);
  }

  lemma IdleHoldsWork(s: System, d: Id)
    requires Good(s, d) && IsIdle(s, d) && TasksOf(s.server, d) == []
    ensures d in s.server.downloads ==> Holds(s, d, DownloadTorrent)
    ensures UpdatesOf(s.server, d) != [] ==> Holds(s, d, UpdateTorrentStatus)
  {
    hide Base;
    assert Attended(s, d);
  }

  lemma OpenMeansUpdate(s: System, d: Id, x: Id)
    requires Good(s, d) && (d, x) in s.ledger.open && Ids(DownloadsOf(s.server, d)) == {}
    ensures x in Ids(UpdatesOf(s.server, d)) && UpdatesOf(s.server, d) != []
  {
    hide AllAttended;
    assert OpenIsListed(s.server, s.ledger);
  }

  /** Idle, past its handshake, and with every download started. */
  predicate Settled(s: System, d: Id) {
    IsIdle(s, d) && s.clients[d].authed && Ids(DownloadsOf(s.server, d)) == {}
  }

  /** The daemon can get its handshake done. */
  lemma {:induction false} GetAuthed(s: System, d: Id) returns (s': System)
    requires Good(s, d)
    ensures Path(s, s', d) && IsIdle(s', d) && s'.clients[d].authed
  {
    hide Base, AllAttended, Keeps;
    s' := FinishTask(s, d);
    if !s'.clients[d].authed {
      IdleHoldsToken(s', d);
      var mid := Drive(s', d, MakeHandshake);
      var end := FinishAtHandshake(mid, d);
      PathTrans(s, s', mid, d);
      PathTrans(s, mid, end, d);
      s' := end;
    }
  }

  /** An idle daemon can fetch every task the server has for it. */
  lemma PollServer(s: System, d: Id) returns (s': System)
    requires Good(s, d) && IsIdle(s, d) && s.clients[d].authed
    ensures Path(s, s', d) && IsIdle(s', d) && s'.clients[d].authed && TasksOf(s'.server, d) == []
  {
    hide Base, AllAttended;
    IdleHoldsToken(s, d);
    var mid := Drive(s, d, UpdateTaskList);
    s' := FinishAtPoll(mid, d);
    PathTrans(s, mid, s', d);
  }

  /** It can start every download it has been given. */
  lemma FetchDownloads(s: System, d: Id) returns (s': System)
    requires Good(s, d) && IsIdle(s, d) && s.clients[d].authed
    ensures Path(s, s', d) && Settled(s', d)
  {
    hide Base, AllAttended;
    s' := PollServer(s, d);
    if d in s'.server.downloads {
      IdleHoldsWork(s', d);
      var mid := Drive(s', d, DownloadTorrent);
      var end := FinishAtDownload(mid, d);
      PathTrans(s, s', mid, d);
      PathTrans(s, mid, end, d);
      s' := end;
    }
  }

  /** At an update task, it can report everything still listed. */
  lemma ReportListed(s: System, d: Id, x: Id) returns (s': System)
    requires Good(s, d) && s.clients[d].pc.AtUpdate? && s.clients[d].authed && Ids(DownloadsOf(s.server, d)) == {}
    ensures Path(s, s', d) && (d, x) !in s'.ledger.open
  {
    hide Base, AllAttended;
    s' := FinishAtUpdate(s, d);
    if (d, x) in s.ledger.open { OpenMeansUpdate(s, d, x); }
  }

  /** And it can report any one of them as finished. */
  lemma ReportFinished(s: System, d: Id, x: Id) returns (s': System)
    requires Good(s, d) && Settled(s, d)
    ensures Path(s, s', d) && (d, x) !in s'.ledger.open
  {
    hide Base, AllAttended;
    s' := PollServer(s, d);
    if (d, x) in s'.ledger.open {
      OpenMeansUpdate(s', d, x);
      IdleHoldsWork(s', d);
      var mid := Drive(s', d, UpdateTorrentStatus);
      PathTrans(s, s', mid, d);
      s' := ReportListed(mid, d, x);
      PathTrans(s, mid, s', d);
    }
  }

  lemma HandOutCanBeFinished(s: System, d: Id, x: Id) returns (s': System)
    requires Good(s, d)
    ensures Path(s, s', d) && (d, x) !in s'.ledger.open
  {
    hide Base, AllAttended, Keeps;
    var a := GetAuthed(s, d);
    var b := FetchDownloads(a, d);
    s' := ReportFinished(b, d, x);
    PathTrans(s, a, b, d);
    PathTrans(s, b, s', d);
  }

  // ---- Only running daemons are handed anything ----

  ghost predicate OnlyRunning(s: System) {
    s.server.uuids <= s.clients.Keys && forall p :: p in s.ledger.open ==> p.0 in s.clients
  }

  lemma {:induction false} HandOutsAlong(s: Server, l: Ledger, d: Id, order: seq<Id>)
    ensures DispatchToOthers(s, d, order).uuids == s.uuids
    ensures forall p :: p in BookDispatchToOthers(s, l, d, order).open ==> p in l.open || p.0 in order
    decreases |order|
  {
    if order != [] {
      if order[0] == d { HandOutsAlong(s, l, d, order[1..]); }
      else { HandOutsAlong(Dispatch(s, order[0]), BookDispatch(s, l, order[0]), d, order[1..]); }
    }
  }

  lemma ReportOnlyRunning(s: System, d: Id, t: Torrent, order: seq<Id>)
    requires OnlyRunning(s) && Walks(order, s.server.uuids)
    ensures Report(s.server, d, t, order).uuids == s.server.uuids
    ensures forall p :: p in Book(s.server, s.ledger, CallReport(d, t, order)).open ==> p.0 in s.clients
  {
    var l1 := s.ledger.(pushed := s.ledger.pushed + [t], open := s.ledger.open - {(d, t.id)});
    HandOutsAlong(Queued(s.server, d, t), l1, d, order);
    assert forall x :: x in order ==> x in (set y | y in order);
  }

  lemma StepOnlyRunning(s: System, e: Event)
    requires OnlyRunning(s) && Enabled(s, e)
    ensures OnlyRunning(Step(s, e))
  {
    if CallOf(s, e).Some? && CallOf(s, e).value.CallReport? {
      ReportOnlyRunning(s, e.d, CallOf(s, e).value.t, e.order);
    }
  }

  lemma {:induction false} RunOnlyRunning(s: System, run: seq<Event>)
    requires OnlyRunning(s) && Legal(s, run)
    ensures OnlyRunning(Final(s, run))
    decreases |run|
  {
    if run != [] {
      StepOnlyRunning(s, run[0]);
      RunOnlyRunning(Step(s, run[0]), run[1..]);
    }
  }

  /** In every reachable state, each torrent handed to a daemon and not yet finished can still be reported as
      finished, by steps of that daemon alone. */
  lemma {:induction false} EveryHandOutCanBeFinished(run: seq<Event>, d: Id, x: Id) returns (more: seq<Event>)
    requires Legal(INITIAL, run) && forall i :: 0 <= i < |run| ==> Linked(run[i])
    requires (d, x) in Final(INITIAL, run).ledger.open
    ensures AllOwn(more, d) && Legal(INITIAL, run + more)
    ensures (d, x) !in Final(INITIAL, run + more).ledger.open
  {
    RunKeepsBase(INITIAL, run);
    RunKeepsAttended(INITIAL, run);
    RunOnlyRunning(INITIAL, run);
    hide Base, AllAttended, Keeps;
    var s := Final(INITIAL, run);
    var s' := HandOutCanBeFinished(s, d, x);
    more :| Legal(s, more) && AllOwn(more, d) && Final(s, more) == s';
    Join(INITIAL, run, more);
  }
}
