/** The daemons and the server as one system of atomic steps.

    Every daemon is a task queue, the batch its worker took from it, a list of deferred tasks
    and a program counter inside the task being run. An RPC and the client code after it are
    separate steps, so the steps of different daemons, their timers and the environment
    interleave freely. The ledger of `ServerSpec` travels with the server. */
module Protocol {
  import opened Common
  import opened Torrents
  import opened ServerSpec
  import opened Walking

  datatype Pc =
    | Idle
    | AtHandshake | Replied(ok: bool)
    | AtPoll | Polled(todo: seq<TaskType>)
    | AtDownload | Fetched(starting: seq<Torrent>)
    | AtUpdate | Reporting(left: seq<Torrent>)
    | AtCreate | Ordered

  /** A worker's tasks: its queue, the batch it took from the queue, and its deferred list. */
  datatype Box = Box(queue: seq<TaskType>, batch: seq<TaskType>, deferred: seq<TaskType>)

  datatype Client = Client(isRun: bool, authed: bool, box: Box, pc: Pc)

  datatype System = System(server: Server, clients: map<Id, Client>, ledger: Ledger)

  const INITIAL := System(FRESH, map[], BLANK)

  /** What the torrent session knows about one torrent at the moment it is asked. */
  datatype Snapshot = Snapshot(link: string, torrentFile: string, status: Status, progress: int, project: string)

  datatype Event =
    | Start(d: Id)
    | Inject(d: Id, k: TaskType)
    | TakeBatch(d: Id)
    | Dequeue(d: Id)
    | Fire(d: Id, i: nat)
    | HandshakeRpc(d: Id, reached: bool, ok: bool)
    | HandshakeDone(d: Id)
    | PollRpc(d: Id)
    | PollAdd(d: Id)
    | PollDone(d: Id)
    | DownloadRpc(d: Id)
    | DownloadOne(d: Id, failed: bool, order: seq<Id>)
    | DownloadDone(d: Id)
    | UpdateRpc(d: Id)
    | ReportRpc(d: Id, now: Snapshot, order: seq<Id>)
    | UpdateDone(d: Id)
    | CreateRpc(d: Id, newId: Id)
    | CreateDone(d: Id)

  /** The step is an RPC other than the handshake. */
  predicate IsWorkRpc(e: Event) {
    e.PollRpc? || e.DownloadRpc? || (e.DownloadOne? && e.failed) || e.UpdateRpc? || e.ReportRpc? || e.CreateRpc?
  }

  function Begin(k: TaskType): Pc {
    match k
    case GenerateMagnet => AtCreate
    case DownloadTorrent => AtDownload
    case UpdateTorrentStatus => AtUpdate
    case UpdateTaskList => AtPoll
    case MakeHandshake => AtHandshake
  }

  function Described(t: Torrent, now: Snapshot): Torrent {
    Torrent(t.id, now.link, now.torrentFile, now.status, now.progress, now.project)
  }

  /** Client `c` is at the point where step `e` can happen. */
  predicate Ready(c: Client, e: Event) {
    match e
    case Start(d) => true
    case Inject(d, k) => true
    case TakeBatch(d) => c.pc.Idle? && c.box.batch == [] && c.box.queue != []
    case Dequeue(d) => c.pc.Idle? && c.box.batch != []
    case Fire(d, i) => i < |c.box.deferred|
    case HandshakeRpc(d, reached, ok) => c.pc.AtHandshake? && (ok ==> reached)
    case HandshakeDone(d) => c.pc.Replied?
    case PollRpc(d) => c.pc.AtPoll?
    case PollAdd(d) => c.pc.Polled? && c.pc.todo != []
    case PollDone(d) => c.pc == Polled([])
    case DownloadRpc(d) => c.pc.AtDownload?
    case DownloadOne(d, failed, order) => c.pc.Fetched? && c.pc.starting != []
    case DownloadDone(d) => c.pc == Fetched([])
    case UpdateRpc(d) => c.pc.AtUpdate?
    case ReportRpc(d, now, order) => c.pc.Reporting? && c.pc.left != []
    case UpdateDone(d) => c.pc == Reporting([])
    case CreateRpc(d, newId) => c.pc.AtCreate?
    case CreateDone(d) => c.pc.Ordered?
  }

  predicate Enabled(s: System, e: Event) {
    if e.Start? then true
    else if e.Inject? then IsWork(e.k)
    else
      && e.d in s.clients && Ready(s.clients[e.d], e)
      && (e.ReportRpc? || (e.DownloadOne? && e.failed) ==> Walks(e.order, s.server.uuids))
  }

  /** The handler call a step makes on the server, if any. */
  function CallOf(s: System, e: Event): (call: Option<Call>)
    requires Enabled(s, e)
    ensures call.Some? ==> call.value.d == e.d
  {
    match e
    case Inject(d, k) => Some(CallAddTask(d, k))
    case HandshakeRpc(d, reached, ok) => if reached then Some(CallHandshake(d)) else None
    case PollRpc(d) => if s.clients[d].isRun then Some(CallTasks(d)) else None
    case DownloadRpc(d) => Some(CallDownloads(d))
    case DownloadOne(d, failed, order) =>
      if failed then Some(CallReport(d, s.clients[d].pc.starting[0], order)) else None
    case UpdateRpc(d) => Some(CallUpdates(d))
    case ReportRpc(d, now, order) => Some(CallReport(d, Described(s.clients[d].pc.left[0], now), order))
    case CreateRpc(d, newId) => Some(CallOrder(d, newId))
    case _ => None
  }

  /** What a step of a task body asks of the worker: `AddTask` or `AddTaskAfterTimeOut`. */
  datatype Request = Nothing | Enqueue(k: TaskType) | Postpone(k: TaskType)

  function RequestOf(pc: Pc, e: Event): Request {
    match e
    case HandshakeDone(_) => if pc == Replied(true) then Enqueue(UpdateTaskList) else Postpone(MakeHandshake)
    case PollAdd(_) => if pc.Polled? && pc.todo != [] then Enqueue(pc.todo[0]) else Nothing
    case PollDone(_) => Postpone(UpdateTaskList)
    case DownloadDone(_) => Enqueue(UpdateTorrentStatus)
    case CreateDone(_) => Postpone(UpdateTorrentStatus)
    case _ => Nothing
  }

  function Served(b: Box, r: Request): Box {
    match r
    case Nothing => b
    case Enqueue(k) => b.(queue := b.queue + [k])
    case Postpone(k) => b.(deferred := b.deferred + [k])
  }

  function NextBox(b: Box, pc: Pc, e: Event): Box {
    match e
    case TakeBatch(_) => if b.batch == [] then Box([], b.queue, b.deferred) else b
    case Dequeue(_) => if b.batch != [] then b.(batch := b.batch[1..]) else b
    case Fire(_, i) =>
      if i < |b.deferred| then Box(b.queue + [b.deferred[i]], b.batch, b.deferred[..i] + b.deferred[i + 1..]) else b
    case _ => Served(b, RequestOf(pc, e))
  }

  function NextPc(c: Client, s: Server, e: Event): Pc
    requires Ready(c, e)
  {
    match e
    case Dequeue(_) => Begin(c.box.batch[0])
    case HandshakeRpc(_, _, ok) => Replied(ok)
    case PollRpc(d) => if c.isRun then Polled(TasksOf(s, d)) else Idle
    case PollAdd(_) => Polled(c.pc.todo[1..])
    case DownloadRpc(d) => Fetched(DownloadsOf(s, d))
    case DownloadOne(_, _, _) => Fetched(c.pc.starting[1..])
    case UpdateRpc(d) => Reporting(UpdatesOf(s, d))
    case ReportRpc(_, _, _) => Reporting(c.pc.left[1..])
    case CreateRpc(_, _) => Ordered
    case HandshakeDone(_) => Idle
    case PollDone(_) => Idle
    case DownloadDone(_) => Idle
    case UpdateDone(_) => Idle
    case CreateDone(_) => Idle
    case _ => c.pc
  }

  /** The client that took the step, after it. */
  function Moved(c: Client, s: Server, e: Event): Client
    requires Ready(c, e)
  {
    Client(c.isRun, c.authed || (e.HandshakeDone? && c.pc.ok), NextBox(c.box, c.pc, e), NextPc(c, s, e))
  }

  function Started(): Client {
    Client(true, false, Box([MakeHandshake], [], []), Idle)
  }

  function Clients(s: System, e: Event): map<Id, Client>
    requires Enabled(s, e)
  {
    if e.Inject? then s.clients
    else if e.Start? then (if e.d in s.clients then s.clients else s.clients[e.d := Started()])
    else s.clients[e.d := Moved(s.clients[e.d], s.server, e)]
  }

  function Step(s: System, e: Event): System
    requires Enabled(s, e)
  {
    match CallOf(s, e)
    case None => s.(clients := Clients(s, e))
    case Some(call) => System(After(s.server, call), Clients(s, e), Book(s.server, s.ledger, call))
  }

  predicate Legal(s: System, run: seq<Event>)
    decreases |run|
  {
    run == [] || (Enabled(s, run[0]) && Legal(Step(s, run[0]), run[1..]))
  }

  function Final(s: System, run: seq<Event>): System
    requires Legal(s, run)
    decreases |run|
  {
    if run == [] then s else Final(Step(s, run[0]), run[1..])
  }

  lemma {:induction false} Extend(s: System, run: seq<Event>, e: Event)
    requires Legal(s, run) && Enabled(Final(s, run), e)
    ensures Legal(s, run + [e]) && Final(s, run + [e]) == Step(Final(s, run), e)
    decreases |run|
  {
    if run == [] {
      assert run + [e] == [e] && [e][1..] == [];
    } else {
      Extend(Step(s, run[0]), run[1..], e);
      assert (run + [e])[1..] == run[1..] + [e];
    }
  }

  /** The torrent session answers with an atomic snapshot: a generated torrent has its link. */
  predicate Linked(e: Event) {
    e.ReportRpc? && e.now.status.Generated? ==> e.now.link != ""
  }
}
