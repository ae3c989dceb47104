/** The server's handler calls as functions on its state, and the ledger that audits them.

    Handler calls are atomic. The order in which the handler walks its set of registered
    daemons is the parameter `order`. */
module ServerSpec {
  import opened Torrents

  datatype TaskType = GenerateMagnet | DownloadTorrent | UpdateTorrentStatus | UpdateTaskList | MakeHandshake

  /** The task types a server hands out: everything but the client's own two polling types. */
  predicate IsWork(k: TaskType) {
    k.GenerateMagnet? || k.DownloadTorrent? || k.UpdateTorrentStatus?
  }

  datatype Server = Server(uuids: set<Id>, deque: seq<Torrent>, tasks: map<Id, seq<TaskType>>,
                           downloads: map<Id, seq<Torrent>>, updates: map<Id, seq<Torrent>>, first: bool)

  const FRESH := Server({}, [], map[], map[], map[], true)
  const PROJECT := "/opt/VerAI/projects/1"

  function TasksOf(s: Server, d: Id): seq<TaskType> { if d in s.tasks then s.tasks[d] else [] }
  function DownloadsOf(s: Server, d: Id): seq<Torrent> { if d in s.downloads then s.downloads[d] else [] }
  function UpdatesOf(s: Server, d: Id): seq<Torrent> { if d in s.updates then s.updates[d] else [] }

  function AddTask(s: Server, d: Id, k: TaskType): Server {
    s.(tasks := s.tasks[d := TasksOf(s, d) + [k]])
  }

  /** Hand the oldest generated torrent, if any, to daemon `d`. */
  function Dispatch(s: Server, d: Id): Server {
    if s.deque == [] then s
    else AddTask(s.(downloads := s.downloads[d := Upsert(DownloadsOf(s, d), s.deque[0])],
                    deque := s.deque[1..]), d, DownloadTorrent)
  }

  function DispatchToOthers(s: Server, d: Id, order: seq<Id>): Server
    decreases |order|
  {
    if order == [] then s
    else DispatchToOthers(if order[0] == d then s else Dispatch(s, order[0]), d, order[1..])
  }

  function Handshake(s: Server, d: Id): Server {
    var s1 := s.(uuids := s.uuids + {d});
    if s.first then AddTask(AddTask(s1, d, GenerateMagnet), d, UpdateTorrentStatus).(first := false)
    else Dispatch(s1, d)
  }

  function RemoveUpdate(s: Server, d: Id, t: Torrent): Server {
    if d in s.updates then s.(updates := s.updates[d := Remove(s.updates[d], t)]) else s
  }

  function AddUpdates(s: Server, d: Id, list: seq<Torrent>): Server {
    if list == [] then s else s.(updates := s.updates[d := UpsertAll(UpdatesOf(s, d), list)])
  }

  function Report(s: Server, d: Id, t: Torrent, order: seq<Id>): Server {
    match t.status
    case Generated =>
      if t.link == "" then s
      else DispatchToOthers(RemoveUpdate(s.(deque := s.deque + [t]), d, t), d, order)
    case Downloaded => RemoveUpdate(s, d, t)
    case _ => AddTask(s, d, UpdateTorrentStatus)
  }

  function TakeTasks(s: Server, d: Id): Server {
    s.(tasks := s.tasks - {d})
  }

  /** The descriptor a generation request creates; blank when the daemon is not registered. */
  function Order(s: Server, d: Id, newId: Id): Torrent {
    if d in s.uuids then Torrent(newId, "", "", NoStatus, 0, PROJECT) else Torrent("", "", "", NoStatus, 0, "")
  }

  function TakeOrder(s: Server, d: Id, newId: Id): Server {
    if d in s.uuids then AddUpdates(s, d, [Order(s, d, newId)]) else s
  }

  function TakeDownloads(s: Server, d: Id): Server {
    if d !in s.downloads then s
    else AddTask(AddUpdates(s, d, s.downloads[d]).(downloads := s.downloads - {d}), d, UpdateTorrentStatus)
  }

  datatype Call =
    | CallAddTask(d: Id, k: TaskType)
    | CallHandshake(d: Id)
    | CallReport(d: Id, t: Torrent, order: seq<Id>)
    | CallTasks(d: Id)
    | CallOrder(d: Id, newId: Id)
    | CallUpdates(d: Id)
    | CallDownloads(d: Id)

  function After(s: Server, c: Call): Server {
    match c
    case CallAddTask(d, k) => AddTask(s, d, k)
    case CallHandshake(d) => Handshake(s, d)
    case CallReport(d, t, order) => Report(s, d, t, order)
    case CallTasks(d) => TakeTasks(s, d)
    case CallOrder(d, newId) => TakeOrder(s, d, newId)
    case CallUpdates(d) => s
    case CallDownloads(d) => TakeDownloads(s, d)
  }

  /** The ledger: every torrent reported as generated, every torrent handed to a daemon, and the
      (daemon, torrent) hand-outs that the daemon has not yet reported as finished. */
  datatype Ledger = Ledger(pushed: seq<Torrent>, dispatched: seq<(Id, Torrent)>, open: set<(Id, Id)>)

  const BLANK := Ledger([], [], {})

  function BookDispatch(s: Server, l: Ledger, d: Id): Ledger {
    if s.deque == [] then l
    else l.(dispatched := l.dispatched + [(d, s.deque[0])], open := l.open + {(d, s.deque[0].id)})
  }

  function BookDispatchToOthers(s: Server, l: Ledger, d: Id, order: seq<Id>): Ledger
    decreases |order|
  {
    if order == [] then l
    else if order[0] == d then BookDispatchToOthers(s, l, d, order[1..])
    else BookDispatchToOthers(Dispatch(s, order[0]), BookDispatch(s, l, order[0]), d, order[1..])
  }

  function Book(s: Server, l: Ledger, c: Call): Ledger {
    match c
    case CallHandshake(d) => if s.first then l else BookDispatch(s, l, d)
    case CallReport(d, t, order) =>
      if t.status.Generated? && t.link != "" then
        BookDispatchToOthers(RemoveUpdate(s.(deque := s.deque + [t]), d, t),
                             l.(pushed := l.pushed + [t], open := l.open - {(d, t.id)}), d, order)
      else if t.status.Downloaded? then l.(open := l.open - {(d, t.id)})
      else l
    case _ => l
  }

  function Goods(out: seq<(Id, Torrent)>): seq<Torrent> {
    seq(|out|, i requires 0 <= i < |out| => out[i].1)
  }

  ghost predicate UniqueLists(s: Server) {
    && (forall d :: d in s.updates ==> Unique(s.updates[d]))
    && (forall d :: d in s.downloads ==> Unique(s.downloads[d]))
  }

  ghost predicate OpenIsListed(s: Server, l: Ledger) {
    forall p :: p in l.open ==> p.1 in Ids(DownloadsOf(s, p.0)) || p.1 in Ids(UpdatesOf(s, p.0))
  }

  /** What every sequence of handler calls keeps. */
  ghost predicate Balanced(s: Server, l: Ledger) {
    && UniqueLists(s)
    && l.pushed == Goods(l.dispatched) + s.deque
    && OpenIsListed(s, l)
  }

  lemma GoodsAppend(out: seq<(Id, Torrent)>, d: Id, t: Torrent)
    ensures Goods(out + [(d, t)]) == Goods(out) + [t]
  {
  }

  lemma DispatchOpenIsListed(s: Server, l: Ledger, d: Id)
    requires OpenIsListed(s, l) && UniqueLists(s) && s.deque != []
    ensures OpenIsListed(Dispatch(s, d), BookDispatch(s, l, d))
  {
    var s', l' := Dispatch(s, d), BookDispatch(s, l, d);
    UpsertRefines(DownloadsOf(s, d), s.deque[0]);
    forall p | p in l'.open
      ensures p.1 in Ids(DownloadsOf(s', p.0)) || p.1 in Ids(UpdatesOf(s', p.0))
    {
      assert UpdatesOf(s', p.0) == UpdatesOf(s, p.0);
      if p.0 != d { assert DownloadsOf(s', p.0) == DownloadsOf(s, p.0); }
    }
  }

  lemma DispatchBalanced(s: Server, l: Ledger, d: Id)
    requires Balanced(s, l)
    ensures Balanced(Dispatch(s, d), BookDispatch(s, l, d))
  {
    if s.deque != [] {
      DispatchOpenIsListed(s, l, d);
      UpsertRefines(DownloadsOf(s, d), s.deque[0]);
      GoodsAppend(l.dispatched, d, s.deque[0]);
      assert s.deque == [s.deque[0]] + s.deque[1..];
    }
  }

  lemma {:induction false} DispatchToOthersBalanced(s: Server, l: Ledger, d: Id, order: seq<Id>)
    requires Balanced(s, l)
    ensures Balanced(DispatchToOthers(s, d, order), BookDispatchToOthers(s, l, d, order))
    decreases |order|
  {
    hide Balanced;
    if order != [] {
      if order[0] == d {
        DispatchToOthersBalanced(s, l, d, order[1..]);
      } else {
        DispatchBalanced(s, l, order[0]);
        DispatchToOthersBalanced(Dispatch(s, order[0]), BookDispatch(s, l, order[0]), d, order[1..]);
      }
    }
  }

  lemma RemoveUpdateBalanced(s: Server, l: Ledger, d: Id, t: Torrent)
    requires Balanced(s, l)
    ensures Balanced(RemoveUpdate(s, d, t), l.(open := l.open - {(d, t.id)}))
  {
    if d in s.updates {
      RemoveRefines(s.updates[d], t);
    }
  }

  lemma AddUpdatesBalanced(s: Server, l: Ledger, d: Id, list: seq<Torrent>)
    requires Balanced(s, l)
    ensures Balanced(AddUpdates(s, d, list), l)
    ensures Ids(UpdatesOf(AddUpdates(s, d, list), d)) == Ids(UpdatesOf(s, d)) + Ids(list)
  {
    UpsertAllRefines(UpdatesOf(s, d), list);
  }

  lemma TakeDownloadsBalanced(s: Server, l: Ledger, d: Id)
    requires Balanced(s, l)
    ensures Balanced(TakeDownloads(s, d), l)
  {
    if d in s.downloads {
      AddUpdatesBalanced(s, l, d, s.downloads[d]);
    }
  }

  lemma ReportBalanced(s: Server, l: Ledger, d: Id, t: Torrent, order: seq<Id>)
    requires Balanced(s, l)
    ensures Balanced(Report(s, d, t, order), Book(s, l, CallReport(d, t, order)))
  {
    if t.status.Downloaded? {
      RemoveUpdateBalanced(s, l, d, t);
    } else if t.status.Generated? && t.link != "" {
      var s1, l1 := s.(deque := s.deque + [t]), l.(pushed := l.pushed + [t]);
      assert Balanced(s1, l1);
      RemoveUpdateBalanced(s1, l1, d, t);
      DispatchToOthersBalanced(RemoveUpdate(s1, d, t), l1.(open := l1.open - {(d, t.id)}), d, order);
    }
  }

  lemma CallBalanced(s: Server, l: Ledger, c: Call)
    requires Balanced(s, l)
    ensures Balanced(After(s, c), Book(s, l, c))
  {
    match c
    case CallHandshake(d) => DispatchBalanced(s.(uuids := s.uuids + {d}), l, d);
    case CallReport(d, t, order) => ReportBalanced(s, l, d, t, order);
    case CallOrder(d, newId) => AddUpdatesBalanced(s, l, d, [Order(s, d, newId)]);
    case CallDownloads(d) => TakeDownloadsBalanced(s, l, d);
    case _ =>
  }

  function Serve(s: Server, calls: seq<Call>): Server
    decreases |calls|
  {
    if calls == [] then s else Serve(After(s, calls[0]), calls[1..])
  }

  function Audit(s: Server, l: Ledger, calls: seq<Call>): Ledger
    decreases |calls|
  {
    if calls == [] then l else Audit(After(s, calls[0]), Book(s, l, calls[0]), calls[1..])
  }

  lemma {:induction false} ServeBalanced(s: Server, l: Ledger, calls: seq<Call>)
    requires Balanced(s, l)
    ensures Balanced(Serve(s, calls), Audit(s, l, calls))
    decreases |calls|
  {
    hide Balanced;
    if calls != [] {
      CallBalanced(s, l, calls[0]);
      ServeBalanced(After(s, calls[0]), Book(s, l, calls[0]), calls[1..]);
    }
  }

  /** Whatever calls a fresh server receives, in whatever order: torrents leave it first in,
      first out, none is lost or handed out twice, and each hand-out that its daemon has not
      reported as finished is still in one of that daemon's lists. */
  lemma TorrentsAreConserved(calls: seq<Call>)
    ensures var s, l := Serve(FRESH, calls), Audit(FRESH, BLANK, calls);
            && UniqueLists(s)
            && l.pushed == Goods(l.dispatched) + s.deque
            && OpenIsListed(s, l)
  {
    assert Balanced(FRESH, BLANK);
    ServeBalanced(FRESH, BLANK, calls);
  }
}
