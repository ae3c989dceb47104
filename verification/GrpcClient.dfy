/** The daemon's client object, updated in place, against the server object.

    Each task body, run without interruption, is one run of the steps of `Protocol`: it takes the system from a
    state that shows the client at the start of the task to one that shows it idle again. What the network and the
    torrent session answer are parameters. */
module GrpcClient {
  import opened Torrents
  import opened ServerSpec
  import opened Protocol
  import opened Walking
  import opened ServerHandling

  /** `run` takes one state to the other. */
  ghost predicate Runs(s: System, run: seq<Event>, s': System) {
    Legal(s, run) && Final(s, run) == s'
  }

  lemma First(s0: System, e: Event) returns (s: System)
    requires Enabled(s0, e)
    ensures s == Step(s0, e) && Runs(s0, [e], s)
  {
    assert Legal(s0, []) && Final(s0, []) == s0 && [] + [e] == [e];
    s := Then(s0, [], s0, e);
  }

  lemma Then(s0: System, run: seq<Event>, s: System, e: Event) returns (s': System)
    requires Runs(s0, run, s) && Enabled(s, e)
    ensures s' == Step(s, e) && Runs(s0, run + [e], s')
  {
    s' := Step(s, e);
    Extend(s0, run, e);
  }

  /** A poll that receives `n` tasks. */
  function PollRun(d: Id, n: nat): seq<Event> {
    [PollRpc(d)] + seq(n, _ => PollAdd(d))
  }

  /** The steps of a download task for the torrents `list`: each is started or, if that fails, reported back. */
  predicate IsDownloadRun(run: seq<Event>, d: Id, list: seq<Torrent>, fails: Torrent -> bool) {
    && |run| == |list| + 1 && run[0] == DownloadRpc(d)
    && forall i :: 0 <= i < |list| ==> run[i + 1] == DownloadOne(d, fails(list[i]), OrderOf(run[i + 1]))
  }

  /** The steps of an update task for the torrents `list`: each is reported as the session describes it. */
  predicate IsUpdateRun(run: seq<Event>, d: Id, list: seq<Torrent>, now: Torrent -> Snapshot) {
    && |run| == |list| + 1 && run[0] == UpdateRpc(d)
    && forall i :: 0 <= i < |list| ==> run[i + 1] == ReportRpc(d, now(list[i]), OrderOf(run[i + 1]))
  }

  /** The order in which the server walked its daemons in this step. */
  function OrderOf(e: Event): seq<Id> {
    if e.DownloadOne? || e.ReportRpc? then e.order else []
  }

  lemma DownloadRunMore(run: seq<Event>, d: Id, list: seq<Torrent>, fails: Torrent -> bool, i: nat, order: seq<Id>)
    requires i < |list| && IsDownloadRun(run, d, list[..i], fails)
    ensures IsDownloadRun(run + [DownloadOne(d, fails(list[i]), order)], d, list[..i + 1], fails)
  {
  }

  lemma UpdateRunMore(run: seq<Event>, d: Id, list: seq<Torrent>, now: Torrent -> Snapshot, i: nat, order: seq<Id>)
    requires i < |list| && IsUpdateRun(run, d, list[..i], now)
    ensures IsUpdateRun(run + [ReportRpc(d, now(list[i]), order)], d, list[..i + 1], now)
  {
  }

  lemma RunsBegin(d: Id, fails: Torrent -> bool, now: Torrent -> Snapshot)
    ensures IsDownloadRun([DownloadRpc(d)], d, [], fails) && IsUpdateRun([UpdateRpc(d)], d, [], now)
  {
  }

  class GRPCClient {
    const uuid: Id
    const server: ServerHandler
    var isRun: bool
    var authed: bool
    var queue: seq<TaskType>
    var batch: seq<TaskType>
    var deferred: seq<TaskType>

    ghost function AsClient(pc: Pc): Client
      reads this
    {
      Client(isRun, authed, Box(queue, batch, deferred), pc)
    }

    /** The system state shows this client, at this point, and its server. */
    ghost predicate Plays(s: System, pc: Pc)
      reads this, server
    {
      uuid in s.clients && s.clients[uuid] == AsClient(pc) && s.server == server.State()
    }

    constructor (uuid: Id, server: ServerHandler)
      ensures this.uuid == uuid && this.server == server && !isRun && !authed
      ensures queue == [] && batch == [] && deferred == []
    {
      this.uuid, this.server, isRun, authed := uuid, server, false, false;
      queue, batch, deferred := [], [], [];
    }

    method AddTask(k: TaskType)
      modifies this`queue
      ensures queue == old(queue) + [k]
    {
      queue := queue + [k];
    }

    method AddTaskAfterTimeOut(k: TaskType)
      modifies this`deferred
      ensures deferred == old(deferred) + [k]
    {
      deferred := deferred + [k];
    }

    /** Starting a new client queues its handshake; a running one is left alone. */
    method Start(ghost s0: System) returns (ghost s: System)
      requires if isRun then Plays(s0, Idle)
               else uuid !in s0.clients && s0.server == server.State() && !authed && queue == batch == deferred == []
      modifies this
      ensures Runs(s0, [Protocol.Start(uuid)], s) && Plays(s, Idle) && isRun
      ensures queue == if old(isRun) then old(queue) else [MakeHandshake]
      ensures authed == old(authed) && batch == old(batch) && deferred == old(deferred)
    {
      s := First(s0, Protocol.Start(uuid));
      if isRun { return; }
      isRun := true;
      AddTask(MakeHandshake);
    }

    /** `reached` tells whether the request got to the server, `replied` whether its reply came back. */
    method HandshakeTask(reached: bool, replied: bool, ghost s0: System) returns (ghost s: System)
      requires Plays(s0, AtHandshake) && (replied ==> reached)
      modifies this, server
      ensures Runs(s0, [HandshakeRpc(uuid, reached, replied), HandshakeDone(uuid)], s) && Plays(s, Idle)
      ensures authed == (old(authed) || replied)
      ensures queue == old(queue) + (if replied then [UpdateTaskList] else [])
      ensures deferred == old(deferred) + (if replied then [] else [MakeHandshake])
    {
      hide Runs;
      var dInfo := DaemonInfo("", "", NotAuthorized);
      if reached { dInfo := server.Handshake(uuid); }
      s := First(s0, HandshakeRpc(uuid, reached, replied));
      if !replied || dInfo.authStatus != OK {
        AddTaskAfterTimeOut(MakeHandshake);
      } else {
        authed := true;
        AddTask(UpdateTaskList);
      }
      s := Then(s0, [HandshakeRpc(uuid, reached, replied)], s, HandshakeDone(uuid));
      assert [HandshakeRpc(uuid, reached, replied)] + [HandshakeDone(uuid)] ==
             [HandshakeRpc(uuid, reached, replied), HandshakeDone(uuid)];
    }

    /** One task of the list received. */
    method AddReceived(k: TaskType, ghost s0: System, ghost run: seq<Event>, ghost s: System,
                       ghost todo: seq<TaskType>)
      returns (ghost s': System)
      requires isRun && Plays(s, Polled(todo)) && Runs(s0, run, s) && todo != [] && todo[0] == k
      modifies this`queue
      ensures isRun && Plays(s', Polled(todo[1..])) && Runs(s0, run + [PollAdd(uuid)], s')
      ensures queue == old(queue) + [k]
    {
      hide Runs;
      s' := Then(s0, run, s, PollAdd(uuid));
      AddTask(k);
    }

    method AddAllReceived(taskList: seq<TaskType>, ghost s0: System, ghost run0: seq<Event>, ghost s1: System)
      returns (ghost run: seq<Event>, ghost s: System)
      requires isRun && Plays(s1, Polled(taskList)) && Runs(s0, run0, s1) && run0 == PollRun(uuid, 0)
      modifies this`queue
      ensures isRun && Plays(s, Polled([])) && Runs(s0, run, s) && run == PollRun(uuid, |taskList|)
      ensures queue == old(queue) + taskList
    {
      hide Runs;
      run, s := run0, s1;
      for i := 0 to |taskList|
        invariant isRun && Plays(s, Polled(taskList[i..])) && Runs(s0, run, s) && run == PollRun(uuid, i)
        invariant queue == old(queue) + taskList[..i]
      {
        s := AddReceived(taskList[i], s0, run, s, taskList[i..]);
        run := run + [PollAdd(uuid)];
        assert taskList[i..][1..] == taskList[i + 1..];
      }
    }

    method UpdateTasksTask(ghost s0: System) returns (ghost run: seq<Event>, ghost s: System)
      requires Plays(s0, AtPoll)
      modifies this, server
      ensures Runs(s0, run, s) && Plays(s, Idle)
      ensures var list := TasksOf(s0.server, uuid);
              if old(isRun) then
                && run == PollRun(uuid, |list|) + [PollDone(uuid)]
                && queue == old(queue) + list && deferred == old(deferred) + [UpdateTaskList]
              else run == [PollRpc(uuid)] && queue == old(queue) && deferred == old(deferred)
    {
      hide Runs;
      run := [PollRpc(uuid)];
      s := First(s0, PollRpc(uuid));
      if isRun {
        var taskList := server.GetTaskList(uuid);
        run, s := AddAllReceived(taskList, s0, run, s);
        s := Then(s0, run, s, PollDone(uuid));
        run := run + [PollDone(uuid)];
        AddTaskAfterTimeOut(UpdateTaskList);
      }
    }

    /** A download that cannot be started is reported back as it came. */
    method StartDownload(t: Torrent, fails: bool, ghost s0: System, ghost run: seq<Event>, ghost s: System,
                         ghost starting: seq<Torrent>)
      returns (ghost order: seq<Id>, ghost s': System)
      requires Plays(s, Fetched(starting)) && Runs(s0, run, s) && starting != [] && starting[0] == t
      modifies server
      ensures Plays(s', Fetched(starting[1..])) && Runs(s0, run + [DownloadOne(uuid, fails, order)], s')
      ensures server.State() == if fails then Report(old(server.State()), uuid, t, order) else old(server.State())
    {
      hide Runs;
      order := [];
      if fails {
        order := server.UpdateTorrentStatus(uuid, t);
      }
      s' := Then(s0, run, s, DownloadOne(uuid, fails, order));
    }

    method StartAllDownloads(torrentList: seq<Torrent>, fails: Torrent -> bool, ghost s0: System,
                             ghost run0: seq<Event>, ghost s1: System)
      returns (ghost run: seq<Event>, ghost s: System)
      requires Plays(s1, Fetched(torrentList)) && Runs(s0, run0, s1) && run0 == [DownloadRpc(uuid)]
      modifies server
      ensures Plays(s, Fetched([])) && Runs(s0, run, s) && IsDownloadRun(run, uuid, torrentList, fails)
    {
      hide Runs, IsDownloadRun, Report;
      run, s := run0, s1;
      RunsBegin(uuid, fails, _ => Snapshot("", "", NoStatus, 0, ""));
      for i := 0 to |torrentList|
        invariant Plays(s, Fetched(torrentList[i..])) && Runs(s0, run, s)
        invariant IsDownloadRun(run, uuid, torrentList[..i], fails)
      {
        ghost var order;
        order, s := StartDownload(torrentList[i], fails(torrentList[i]), s0, run, s, torrentList[i..]);
        DownloadRunMore(run, uuid, torrentList, fails, i, order);
        run := run + [DownloadOne(uuid, fails(torrentList[i]), order)];
        assert torrentList[i..][1..] == torrentList[i + 1..];
      }
      assert torrentList[..|torrentList|] == torrentList;
    }

    method DownloadTorrentTask(fails: Torrent -> bool, ghost s0: System)
      returns (ghost run: seq<Event>, ghost s: System)
      requires Plays(s0, AtDownload)
      modifies this, server
      ensures Runs(s0, run + [DownloadDone(uuid)], s) && Plays(s, Idle)
      ensures IsDownloadRun(run, uuid, DownloadsOf(s0.server, uuid), fails)
      ensures queue == old(queue) + [UpdateTorrentStatus]
    {
      hide Runs, IsDownloadRun, Report, TakeDownloads;
      run := [DownloadRpc(uuid)];
      s := First(s0, DownloadRpc(uuid));
      var torrentList := server.GetTorrentsForDownload(uuid);
      run, s := StartAllDownloads(torrentList, fails, s0, run, s);
      s := Then(s0, run, s, DownloadDone(uuid));
      AddTask(UpdateTorrentStatus);
    }

    /** `now` is what the torrent session answers for the torrent. */
    method ReportTorrent(t: Torrent, now: Snapshot, ghost s0: System, ghost run: seq<Event>, ghost s: System,
                         ghost left: seq<Torrent>)
      returns (ghost order: seq<Id>, ghost s': System)
      requires Plays(s, Reporting(left)) && Runs(s0, run, s) && left != [] && left[0] == t
      modifies server
      ensures Plays(s', Reporting(left[1..])) && Runs(s0, run + [ReportRpc(uuid, now, order)], s')
    {
      hide Runs;
      var tInfo := Described(t, now);
      order := server.UpdateTorrentStatus(uuid, tInfo);
      s' := Then(s0, run, s, ReportRpc(uuid, now, order));
    }

    method UpdateTorrentTask(now: Torrent -> Snapshot, ghost s0: System)
      returns (ghost run: seq<Event>, ghost s: System)
      requires Plays(s0, AtUpdate)
      modifies this, server
      ensures Runs(s0, run + [UpdateDone(uuid)], s) && Plays(s, Idle)
      ensures IsUpdateRun(run, uuid, UpdatesOf(s0.server, uuid), now)
    {
      hide Runs, IsUpdateRun, Report;
      run := [UpdateRpc(uuid)];
      RunsBegin(uuid, _ => false, now);
      s := First(s0, UpdateRpc(uuid));
      var torrentList := server.GetTorrentsForUpdateStatus(uuid);
      for i := 0 to |torrentList|
        invariant Plays(s, Reporting(torrentList[i..])) && Runs(s0, run, s)
        invariant IsUpdateRun(run, uuid, torrentList[..i], now)
      {
        ghost var order;
        order, s := ReportTorrent(torrentList[i], now(torrentList[i]), s0, run, s, torrentList[i..]);
        UpdateRunMore(run, uuid, torrentList, now, i, order);
        run := run + [ReportRpc(uuid, now(torrentList[i]), order)];
        assert torrentList[i..][1..] == torrentList[i + 1..];
      }
      assert torrentList[..|torrentList|] == torrentList;
      s := Then(s0, run, s, UpdateDone(uuid));
    }

    /** `newId` is the id the server gives the new torrent, if the daemon is registered. */
    method CreateTorrentTask(newId: Id, ghost s0: System) returns (ghost s: System)
      requires Plays(s0, AtCreate)
      modifies this, server
      ensures Runs(s0, [CreateRpc(uuid, newId), CreateDone(uuid)], s) && Plays(s, Idle)
      ensures deferred == old(deferred) + [UpdateTorrentStatus]
    {
      hide Runs;
      s := First(s0, CreateRpc(uuid, newId));
      var torrentList := server.GetInfoForGenerateTorrents(uuid, newId);
      s := Then(s0, [CreateRpc(uuid, newId)], s, CreateDone(uuid));
      assert [CreateRpc(uuid, newId)] + [CreateDone(uuid)] == [CreateRpc(uuid, newId), CreateDone(uuid)];
      AddTaskAfterTimeOut(UpdateTorrentStatus);
    }
  }
}
