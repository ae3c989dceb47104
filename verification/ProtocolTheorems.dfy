/** The guarantees of the work-distribution protocol, over every run. */
module ProtocolTheorems {
  import opened Torrents
  import opened ServerSpec
  import opened Protocol
  import opened ProtocolProofs
  import opened Walking

  /** Every list the server keeps for a daemon has a live task, and every open hand-out is in such a list. */
  ghost predicate NothingStranded(s: System) {
    && (forall d :: UpdatesOf(s.server, d) != [] ==> UpdateAlive(s, d))
    && (forall d :: d in s.server.downloads ==> DownloadAlive(s, d))
    && (forall p :: p in s.ledger.open ==>
          || (p.1 in Ids(DownloadsOf(s.server, p.0)) && DownloadAlive(s, p.0))
          || (p.1 in Ids(UpdatesOf(s.server, p.0)) && UpdateAlive(s, p.0)))
  }

  lemma AttendedIsNotStranded(s: System)
    requires AllAttended(s) && OpenIsListed(s.server, s.ledger)
    ensures NothingStranded(s)
  {
    forall d ensures UpdatesOf(s.server, d) != [] ==> UpdateAlive(s, d)
             ensures d in s.server.downloads ==> DownloadAlive(s, d)
    {
      assert Attended(s, d);
    }
  }

  lemma InitialHolds()
    ensures Base(INITIAL) && AllAttended(INITIAL)
  {
  }

  /** Any number of daemons, any interleaving, any failed handshakes and downloads, any tasks injected
      by the environment: torrents are handed out first in, first out; whatever the server lists for a
      daemon, the task that will deal with it is alive; and so every hand-out that the daemon has not
      reported as finished is still listed where a live task will find it. */
  lemma {:induction false} NoTorrentIsStranded(run: seq<Event>)
    requires Legal(INITIAL, run) && forall i :: 0 <= i < |run| ==> Linked(run[i])
    ensures var s := Final(INITIAL, run);
            s.ledger.pushed == Goods(s.ledger.dispatched) + s.server.deque && NothingStranded(s)
  {
    hide AllAttended, NothingStranded;
    InitialHolds();
    RunKeepsBase(INITIAL, run);
    RunKeepsAttended(INITIAL, run);
    AttendedIsNotStranded(Final(INITIAL, run));
  }

  /** A running client has exactly one polling token, in its queue, batch, deferred list or current task. */
  lemma {:induction false} OnePollingToken(run: seq<Event>, d: Id)
    requires Legal(INITIAL, run) && d in Final(INITIAL, run).clients
    ensures var c := Final(INITIAL, run).clients[d];
            HandshakeTokens(Tasks(c.box), c.pc) + PollTokens(Tasks(c.box), c.pc) == 1
  {
    RunKeepsBase(INITIAL, run);
  }

  /** So a client always has a step of its own to take. */
  lemma {:induction false} ClientNeverStuck(run: seq<Event>, d: Id) returns (e: Event)
    requires Legal(INITIAL, run) && d in Final(INITIAL, run).clients
    ensures e.d == d && !e.Start? && !e.Inject? && Enabled(Final(INITIAL, run), e)
  {
    OnePollingToken(run, d);
    var c := Final(INITIAL, run).clients[d];
    e := match c.pc
      case Idle => (if c.box.batch != [] then Dequeue(d) else if c.box.queue != [] then TakeBatch(d) else Fire(d, 0))
      case AtHandshake => HandshakeRpc(d, true, true)
      case Replied(_) => HandshakeDone(d)
      case AtPoll => PollRpc(d)
      case Polled(todo) => (if todo == [] then PollDone(d) else PollAdd(d))
      case AtDownload => DownloadRpc(d)
      case Fetched(starting) => (if starting == [] then DownloadDone(d) else DownloadOne(d, false, []))
      case AtUpdate => UpdateRpc(d)
      case Reporting(left) =>
        (if left == [] then UpdateDone(d)
         else ReportRpc(d, Snapshot("", "", Downloaded, 0, ""), Walk(Final(INITIAL, run).server.uuids)))
      case AtCreate => CreateRpc(d, "")
      case Ordered => CreateDone(d);
  }

  // ---- The handshake comes first ----

  /** The step stores a successful handshake reply. */
  predicate StoresReply(s: System, e: Event) {
    e.HandshakeDone? && e.d in s.clients && s.clients[e.d].pc == Replied(true)
  }

  /** The state before step `i`. */
  function At(s: System, run: seq<Event>, i: nat): System
    requires Legal(s, run) && i <= |run|
    decreases |run|
  {
    if i == 0 then s else At(Step(s, run[0]), run[1..], i - 1)
  }

  lemma {:induction false} AtSteps(s: System, run: seq<Event>, i: nat)
    requires Legal(s, run) && i < |run|
    ensures Enabled(At(s, run, i), run[i]) && At(s, run, i + 1) == Step(At(s, run, i), run[i])
    decreases |run|
  {
    if i > 0 { AtSteps(Step(s, run[0]), run[1..], i - 1); }
  }

  lemma {:induction false} BaseAt(s: System, run: seq<Event>, i: nat)
    requires Legal(s, run) && Base(s) && i <= |run|
    ensures Base(At(s, run, i))
    decreases |run|
  {
    if i > 0 {
      StepKeepsBase(s, run[0]);
      BaseAt(Step(s, run[0]), run[1..], i - 1);
    }
  }

  lemma {:induction false} AuthedByReply(run: seq<Event>, i: nat, d: Id) returns (j: nat)
    requires Legal(INITIAL, run) && i <= |run|
    requires var s := At(INITIAL, run, i); d in s.clients && s.clients[d].authed
    ensures j < i && run[j].d == d && StoresReply(At(INITIAL, run, j), run[j])
    decreases i
  {
    if i > 0 {
      AtSteps(INITIAL, run, i - 1);
      var s := At(INITIAL, run, i - 1);
      if StoresReply(s, run[i - 1]) && run[i - 1].d == d {
        j := i - 1;
      } else {
        j := AuthedByReply(run, i - 1, d);
      }
    }
  }

  lemma RpcNeedsReply(s: System, e: Event)
    requires Enabled(s, e) && IsWorkRpc(e) && TokenKept(s.clients[e.d])
    ensures s.clients[e.d].authed
  {
  }

  /** No daemon makes any other RPC before it has stored the reply to a successful handshake. */
  lemma {:induction false} HandshakeFirst(run: seq<Event>, i: nat)
    requires Legal(INITIAL, run) && i < |run| && IsWorkRpc(run[i])
    ensures exists j :: 0 <= j < i && run[j].d == run[i].d && StoresReply(At(INITIAL, run, j), run[j])
  {
    hide TokenKept;
    AtSteps(INITIAL, run, i);
    BaseAt(INITIAL, run, i);
    RpcNeedsReply(At(INITIAL, run, i), run[i]);
    var j := AuthedByReply(run, i, run[i].d);
  }

  // ---- The one report that can strand a torrent ----

  /** Some UPDATE_TORRENT_STATUS task for `d` is waiting, on the server or in the client. */
  predicate UpdateWaiting(s: System, d: Id) {
    UpdateTorrentStatus in TasksOf(s.server, d) || UpdateTorrentStatus in Waiting(s, d)
  }

  /** A report keeps its daemon attended exactly when it is not a GENERATED report without a link, about a
      torrent that is listed and will not be reported again by this task, with no other update task waiting. */
  lemma {:induction false} ReportAttendsUnless(s: System, e: Event)
    requires Enabled(s, e) && e.ReportRpc? && Base(s) && Attended(s, e.d)
    ensures var left := s.clients[e.d].pc.left;
            Attended(Step(s, e), e.d) <==>
              !(&& e.now.status.Generated? && e.now.link == ""
                && left[0].id in Ids(UpdatesOf(s.server, e.d))
                && left[0].id !in Ids(left[1..])
                && !UpdateWaiting(s, e.d))
  {
    if Linked(e) {
      ReportAttended(s, e);
    } else {
      var c, s' := s.clients[e.d], Step(s, e);
      assert s'.server == s.server && s'.clients[e.d].box == c.box;
      UnlinkedCovered(TasksOf(s.server, e.d), UpdatesOf(s.server, e.d), e.d in s.server.downloads,
                      Waiting(s, e.d), c.pc.left);
    }
  }

  lemma UnlinkedCovered(tasks: seq<TaskType>, updates: seq<Torrent>, fetchable: bool, m: multiset<TaskType>,
                        left: seq<Torrent>)
    requires left != [] && Covered(tasks, updates, fetchable, m, Reporting(left))
    ensures Covered(tasks, updates, fetchable, m, Reporting(left[1..])) <==>
              !(&& left[0].id in Ids(updates) && left[0].id !in Ids(left[1..])
                && UpdateTorrentStatus !in tasks && UpdateTorrentStatus !in m)
  {
  }
}
