/** Two runs from the very start, of one daemon alone: one strands a torrent, one multiplies the update tasks. */
module ProtocolRuns {
  import opened Torrents
  import opened ServerSpec
  import opened Walking
  import opened Protocol
  import opened ProtocolProofs
  import opened ProtocolTheorems
  import opened ProtocolGrowth

  /** The only daemon is "d", and nothing has been handed out. */
  function Solo(server: Server, c: Client): System {
    System(server, map["d" := c], BLANK)
  }

  ghost predicate SoloRun(run: seq<Event>, server: Server, c: Client) {
    Legal(INITIAL, run) && Final(INITIAL, run) == Solo(server, c)
  }

  /** One more step of "d". */
  lemma SoloStep(run: seq<Event>, server: Server, c: Client, e: Event, server': Server, c': Client)
    returns (run': seq<Event>)
    requires SoloRun(run, server, c) && e.d == "d" && !e.Start? && !e.Inject?
    requires Enabled(Solo(server, c), e) && c' == Moved(c, server, e)
    requires var call := CallOf(Solo(server, c), e);
             if call.Some? then server' == After(server, call.value) && Book(server, BLANK, call.value) == BLANK
             else server' == server
    ensures SoloRun(run', server', c')
  {
    run' := run + [e];
    Extend(INITIAL, run, e);
    assert map["d" := c]["d" := c'] == map["d" := c'];
  }

  /** A step that makes no call. */
  lemma LocalStep(run: seq<Event>, server: Server, c: Client, e: Event, c': Client) returns (run': seq<Event>)
    requires SoloRun(run, server, c) && e.d == "d" && IsLocal(e) && Ready(c, e) && c' == Moved(c, server, e)
    ensures SoloRun(run', server, c')
  {
    run' := SoloStep(run, server, c, e, server, c');
  }

  /** A client of "d" past its handshake. */
  function Authed(queue: seq<TaskType>, batch: seq<TaskType>, deferred: seq<TaskType>, pc: Pc): Client {
    Client(true, true, Box(queue, batch, deferred), pc)
  }

  function ServerWith(tasks: map<Id, seq<TaskType>>, updates: map<Id, seq<Torrent>>): Server {
    Server({"d"}, [], tasks, map[], updates, false)
  }

  const ORDERED := Torrent("7", "", "", NoStatus, 0, PROJECT)
  const WITHOUT_LINK := Snapshot("", "", Generated, 100, PROJECT)
  const FIRST_TASKS := [GenerateMagnet, UpdateTorrentStatus]

  /** The server before and after the first handshake of "d", with tasks `extra` injected for it before. */
  function Unvisited(extra: seq<TaskType>): Server {
    FRESH.(tasks := if extra == [] then map[] else map["d" := extra])
  }

  function Welcoming(extra: seq<TaskType>): Server {
    ServerWith(map["d" := extra + FIRST_TASKS], map[])
  }

  const ASKED := ServerWith(map[], map["d" := [ORDERED]])

  lemma Welcomes(extra: seq<TaskType>)
    ensures Handshake(Unvisited(extra), "d") == Welcoming(extra)
    ensures TakeTasks(Welcoming(extra), "d") == ServerWith(map[], map[])
  {
    assert extra + [GenerateMagnet] + [UpdateTorrentStatus] == extra + FIRST_TASKS;
  }

  lemma RunToStart(injected: bool) returns (run: seq<Event>)
    ensures SoloRun(run, Unvisited(if injected then [GenerateMagnet] else []), Started())
  {
    var start := [Event.Start("d")];
    assert start[1..] == [];
    if injected {
      run := [Inject("d", GenerateMagnet)] + start;
      var s := Step(INITIAL, run[0]);
      assert run[1..] == start && [] + [GenerateMagnet] == [GenerateMagnet];
      assert s == System(Unvisited([GenerateMagnet]), map[], BLANK);
      assert Step(s, start[0]) == Solo(s.server, Started());
      assert Legal(s, start) && Final(s, start) == Solo(s.server, Started());
    } else {
      run := start;
      assert Step(INITIAL, start[0]) == Solo(FRESH, Started());
    }
  }

  lemma RunToReply(injected: bool) returns (run: seq<Event>)
    ensures SoloRun(run, Welcoming(if injected then [GenerateMagnet] else []),
                    Client(true, false, Box([], [], []), Replied(true)))
  {
    hide SoloRun, Handshake;
    var c, extra := Started(), if injected then [GenerateMagnet] else [];
    run := RunToStart(injected);
    var c1, c2 := c.(box := Box([], [MakeHandshake], [])), c.(box := Box([], [], []), pc := AtHandshake);
    run := LocalStep(run, Unvisited(extra), c, TakeBatch("d"), c1);
    run := LocalStep(run, Unvisited(extra), c1, Dequeue("d"), c2);
    Welcomes(extra);
    run := SoloStep(run, Unvisited(extra), c2, HandshakeRpc("d", true, true), Welcoming(extra),
                    c2.(pc := Replied(true)));
  }

  /** "d" starts and gets its handshake done. */
  lemma RunToHandshake(injected: bool) returns (run: seq<Event>)
    ensures SoloRun(run, Welcoming(if injected then [GenerateMagnet] else []), Authed([UpdateTaskList], [], [], Idle))
  {
    hide SoloRun, Welcoming;
    var extra := if injected then [GenerateMagnet] else [];
    run := RunToReply(injected);
    run := LocalStep(run, Welcoming(extra), Client(true, false, Box([], [], []), Replied(true)), HandshakeDone("d"),
                     Authed([UpdateTaskList], [], [], Idle));
  }

  /** It polls the server. */
  lemma RunToPoll(injected: bool) returns (run: seq<Event>)
    ensures SoloRun(run, ServerWith(map[], map[]),
                    Authed([], [], [], Polled((if injected then [GenerateMagnet] else []) + FIRST_TASKS)))
  {
    hide SoloRun;
    var extra := if injected then [GenerateMagnet] else [];
    run := RunToHandshake(injected);
    var s, c, c1 := Welcoming(extra), Authed([], [UpdateTaskList], [], Idle), Authed([], [], [], AtPoll);
    run := LocalStep(run, s, Authed([UpdateTaskList], [], [], Idle), TakeBatch("d"), c);
    run := LocalStep(run, s, c, Dequeue("d"), c1);
    Welcomes(extra);
    run := SoloStep(run, s, c1, PollRpc("d"), ServerWith(map[], map[]),
                    Authed([], [], [], Polled(extra + FIRST_TASKS)));
  }

  // ---- A torrent stranded ----

  /** It takes up the generation task. */
  lemma RunToCreate() returns (run: seq<Event>)
    ensures SoloRun(run, ServerWith(map[], map[]), Authed([], [UpdateTorrentStatus], [UpdateTaskList], AtCreate))
  {
    hide SoloRun;
    var s := ServerWith(map[], map[]);
    run := RunToPoll(false);
    assert [] + FIRST_TASKS == FIRST_TASKS;
    var c := Authed([GenerateMagnet], [], [], Polled([UpdateTorrentStatus]));
    run := LocalStep(run, s, Authed([], [], [], Polled(FIRST_TASKS)), PollAdd("d"), c);
    run := LocalStep(run, s, c, PollAdd("d"), Authed(FIRST_TASKS, [], [], Polled([])));
    c := Authed(FIRST_TASKS, [], [UpdateTaskList], Idle);
    run := LocalStep(run, s, Authed(FIRST_TASKS, [], [], Polled([])), PollDone("d"), c);
    var c' := Authed([], FIRST_TASKS, [UpdateTaskList], Idle);
    run := LocalStep(run, s, c, TakeBatch("d"), c');
    run := LocalStep(run, s, c', Dequeue("d"), Authed([], [UpdateTorrentStatus], [UpdateTaskList], AtCreate));
  }

  /** An update task that starts with "d" idle and reports its one torrent without a link. */
  lemma RunUpdate(run: seq<Event>, deferred: seq<TaskType>) returns (run': seq<Event>)
    requires SoloRun(run, ASKED, Authed([], [UpdateTorrentStatus], deferred, Idle))
    ensures SoloRun(run', ASKED, Authed([], [], deferred, Reporting([])))
  {
    hide SoloRun;
    var c, c' := Authed([], [], deferred, AtUpdate), Authed([], [], deferred, Reporting([ORDERED]));
    run' := LocalStep(run, ASKED, Authed([], [UpdateTorrentStatus], deferred, Idle), Dequeue("d"), c);
    run' := SoloStep(run', ASKED, c, UpdateRpc("d"), ASKED, c');
    run' := ReportWithoutLink(run', c');
  }

  lemma ReportWithoutLink(run: seq<Event>, c: Client) returns (run': seq<Event>)
    requires SoloRun(run, ASKED, c) && c.pc == Reporting([ORDERED])
    ensures SoloRun(run', ASKED, c.(pc := Reporting([])))
  {
    hide SoloRun;
    var e := ReportRpc("d", WITHOUT_LINK, ["d"]);
    assert (set x | x in ["d"]) == {"d"} && [ORDERED][1..] == [];
    run' := SoloStep(run, ASKED, c, e, ASKED, c.(pc := Reporting([])));
  }

  lemma Orders()
    ensures TakeOrder(ServerWith(map[], map[]), "d", "7") == ASKED
  {
    assert [ORDERED][1..] == [] && UpsertAll([], [ORDERED]) == [ORDERED];
  }

  /** It orders the torrent and runs its first update task. */
  lemma RunToFirstReport() returns (run: seq<Event>)
    ensures SoloRun(run, ASKED, Authed([], [], [UpdateTaskList, UpdateTorrentStatus], Reporting([])))
  {
    hide SoloRun;
    run := RunToCreate();
    Orders();
    var c := Authed([], [UpdateTorrentStatus], [UpdateTaskList], Ordered);
    run := SoloStep(run, ServerWith(map[], map[]), c.(pc := AtCreate), CreateRpc("d", "7"), ASKED, c);
    var both := [UpdateTaskList, UpdateTorrentStatus];
    run := LocalStep(run, ASKED, c, CreateDone("d"), Authed([], [UpdateTorrentStatus], both, Idle));
    run := RunUpdate(run, both);
  }

  /** A torrent is ordered, its session reports it twice as generated but without a link, and it is stranded: it is
      in the update list and no update task is left anywhere. */
  lemma {:induction false} EmptyLinkStrands() returns (run: seq<Event>)
    ensures Legal(INITIAL, run)
    ensures var s := Final(INITIAL, run);
            UpdatesOf(s.server, "d") == [ORDERED] && !UpdateAlive(s, "d") && !NothingStranded(s)
  {
    hide SoloRun, UpdateAlive, NothingStranded;
    run := RunToFirstReport();
    var both := [UpdateTaskList, UpdateTorrentStatus];
    run := LocalStep(run, ASKED, Authed([], [], both, Reporting([])), UpdateDone("d"), Authed([], [], both, Idle));
    var c, c' := Authed([UpdateTorrentStatus], [], [UpdateTaskList], Idle),
                 Authed([], [UpdateTorrentStatus], [UpdateTaskList], Idle);
    run := LocalStep(run, ASKED, Authed([], [], both, Idle), Fire("d", 1), c);
    run := LocalStep(run, ASKED, c, TakeBatch("d"), c');
    run := RunUpdate(run, [UpdateTaskList]);
    Stranded(run);
  }

  lemma Stranded(run: seq<Event>)
    requires SoloRun(run, ASKED, Authed([], [], [UpdateTaskList], Reporting([])))
    ensures Legal(INITIAL, run)
    ensures var s := Final(INITIAL, run);
            UpdatesOf(s.server, "d") == [ORDERED] && !UpdateAlive(s, "d") && !NothingStranded(s)
  {
    var s := Final(INITIAL, run);
    assert Waiting(s, "d") == multiset{UpdateTaskList};
    IdsNonEmpty([ORDERED]);
  }

  // ---- Update tasks multiplied ----

  const SECOND := ORDERED.(id := "8")
  const ASKED_TWICE := ServerWith(map[], map["d" := [ORDERED, SECOND]])

  lemma OrdersTwice()
    ensures TakeOrder(ASKED, "d", "8") == ASKED_TWICE
  {
    assert [SECOND][1..] == [] && [ORDERED][1..] == [];
    assert Upsert([ORDERED], SECOND) == [ORDERED] + [SECOND] == [ORDERED, SECOND];
    assert UpsertAll([ORDERED], [SECOND]) == [ORDERED, SECOND];
  }

  /** With a second generation task injected, "d" receives two of them and the first update task. */
  lemma RunToReceive() returns (run: seq<Event>)
    ensures SoloRun(run, ServerWith(map[], map[]),
                    Authed([], [GenerateMagnet] + FIRST_TASKS, [UpdateTaskList], Idle))
  {
    hide SoloRun;
    var s, all := ServerWith(map[], map[]), [GenerateMagnet] + FIRST_TASKS;
    run := RunToPoll(true);
    var c, c1 := Authed([GenerateMagnet], [], [], Polled(FIRST_TASKS)),
                 Authed([GenerateMagnet, GenerateMagnet], [], [], Polled([UpdateTorrentStatus]));
    run := LocalStep(run, s, Authed([], [], [], Polled(all)), PollAdd("d"), c);
    run := LocalStep(run, s, c, PollAdd("d"), c1);
    c := Authed(all, [], [], Polled([]));
    assert [GenerateMagnet, GenerateMagnet] + [UpdateTorrentStatus] == all && [UpdateTorrentStatus][1..] == [];
    run := LocalStep(run, s, c1, PollAdd("d"), c);
    c1 := Authed(all, [], [UpdateTaskList], Idle);
    run := LocalStep(run, s, c, PollDone("d"), c1);
    run := LocalStep(run, s, c1, TakeBatch("d"), Authed([], all, [UpdateTaskList], Idle));
  }

  /** A generation task from its start to its end. */
  lemma RunOrder(run: seq<Event>, s: Server, c: Client, newId: Id, s': Server) returns (run': seq<Event>)
    requires SoloRun(run, s, c) && c.pc.Idle? && c.box.batch != [] && c.box.batch[0] == GenerateMagnet
    requires s' == TakeOrder(s, "d", newId)
    ensures SoloRun(run', s', c.(box := c.box.(batch := c.box.batch[1..],
                                               deferred := c.box.deferred + [UpdateTorrentStatus])))
  {
    hide SoloRun, TakeOrder;
    var c1 := c.(box := c.box.(batch := c.box.batch[1..]), pc := AtCreate);
    run' := LocalStep(run, s, c, Dequeue("d"), c1);
    run' := SoloStep(run', s, c1, CreateRpc("d", newId), s', c1.(pc := Ordered));
    var box := c1.box.(deferred := c1.box.deferred + [UpdateTorrentStatus]);
    run' := LocalStep(run', s', c1.(pc := Ordered), CreateDone("d"), c1.(box := box, pc := Idle));
  }

  /** "d" has two torrents listed and three update tasks, one of them in its batch. */
  lemma RunToTwo() returns (run: seq<Event>)
    ensures SoloRun(run, ASKED_TWICE, Authed(UpdateTasks(2), UpdateTasks(1), [UpdateTaskList], Idle))
  {
    hide SoloRun, TakeOrder;
    run := RunToReceive();
    Orders();
    OrdersTwice();
    var c := Authed([], [GenerateMagnet] + FIRST_TASKS, [UpdateTaskList], Idle);
    assert c.box.batch[1..] == FIRST_TASKS && FIRST_TASKS[1..] == UpdateTasks(1);
    run := RunOrder(run, ServerWith(map[], map[]), c, "7", ASKED);
    c := Authed([], FIRST_TASKS, [UpdateTaskList] + [UpdateTorrentStatus], Idle);
    run := RunOrder(run, ASKED, c, "8", ASKED_TWICE);
    c := Authed([], UpdateTasks(1), [UpdateTaskList] + [UpdateTorrentStatus] + [UpdateTorrentStatus], Idle);
    var c1 := Authed(UpdateTasks(1), UpdateTasks(1), [UpdateTaskList] + [UpdateTorrentStatus], Idle);
    run := LocalStep(run, ASKED_TWICE, c, Fire("d", 2), c1);
    var c2 := Authed(UpdateTasks(2), UpdateTasks(1), [UpdateTaskList], Idle);
    run := LocalStep(run, ASKED_TWICE, c1, Fire("d", 1), c2);
  }

  /** From there on every report finds its torrent unfinished: the server holds six update tasks once the daemon has
      run its three, and six times two to the `n` after `n` more polls. */
  lemma UpdatesDoMultiply(n: nat) returns (before: seq<Event>, after: seq<Event>)
    ensures Legal(INITIAL, before) && Legal(Final(INITIAL, before), after) && Polls(after, "d") == n
    ensures |TasksOf(Final(Final(INITIAL, before), after).server, "d")| == 6 * Power(2, n)
  {
    before := RunToTwo();
    var s := Final(INITIAL, before);
    var s' := MultiplyFromTwo(s, n);
    after :| Legal(s, after) && Final(s, after) == s' && Stalled(after, "d") && Polls(after, "d") == n;
  }

  lemma MultiplyFromTwo(s: System, n: nat) returns (s': System)
    requires s == Solo(ASKED_TWICE, Authed(UpdateTasks(2), UpdateTasks(1), [UpdateTaskList], Idle))
    ensures Reached(s, s', "d", n) && |TasksOf(s'.server, "d")| == 6 * Power(2, n)
  {
    var two, b := [ORDERED, SECOND], Box(UpdateTasks(2), UpdateTasks(1), [UpdateTaskList]);
    assert Legal(s, []) && Final(s, []) == s && Stalled([], "d") && Polls([], "d") == 0;
    hide Reached;
    assert UpdateTasks(0) == [];
    s' := RunBatch(s, s, "d", 0, b, 1, 0, two);
    s' := Go(s, s', TakeBatch("d"), 0);
    s' := RunBatch(s, s', "d", 0, Box([], UpdateTasks(2), [UpdateTaskList]), 2, 2, two);
    s' := Rounds(s, s', "d", 0, 6, two, n);
  }
}
