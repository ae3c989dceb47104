/** The server's handler object, updated in place, proved against `ServerSpec`. */
module ServerHandling {
  import opened Torrents
  import Spec = ServerSpec
  import opened Walking

  datatype AuthStatus = OK | NotAuthorized

  datatype DaemonInfo = DaemonInfo(uuid: Id, authToken: string, authStatus: AuthStatus)

  method FindTorrent(list: seq<Torrent>, info: Torrent) returns (i: nat)
    ensures FirstAt(list, info.id, i)
  {
    i := 0;
    while i < |list|
      invariant i <= |list|
      invariant forall j :: 0 <= j < i ==> list[j].id != info.id
    {
      if info.id == list[i].id { return; }
      i := i + 1;
    }
  }

  method UpdateOrAddTorrent(d: Id, infoMap: map<Id, seq<Torrent>>, info: Torrent)
    returns (out: map<Id, seq<Torrent>>)
    ensures out == infoMap[d := Upsert(if d in infoMap then infoMap[d] else [], info)]
  {
    if d !in infoMap {
      out := infoMap[d := [info]];
    } else {
      var i := FindTorrent(infoMap[d], info);
      UpsertAtFirst(infoMap[d], info, i);
      out := infoMap[d := if i < |infoMap[d]| then infoMap[d][i := info] else infoMap[d] + [info]];
    }
  }

  method RemoveTorrent(d: Id, infoMap: map<Id, seq<Torrent>>, info: Torrent)
    returns (out: map<Id, seq<Torrent>>)
    ensures out == if d in infoMap then infoMap[d := Remove(infoMap[d], info)] else infoMap
  {
    out := infoMap;
    if d in infoMap {
      var i := FindTorrent(infoMap[d], info);
      RemoveAtFirst(infoMap[d], info, i);
      if i < |infoMap[d]| {
        out := infoMap[d := infoMap[d][..i] + infoMap[d][i + 1..]];
      }
    }
  }

  lemma {:induction false} DispatchToOthersAppend(s: Spec.Server, d: Id, order: seq<Id>, x: Id)
    ensures Spec.DispatchToOthers(s, d, order + [x]) ==
            var mid := Spec.DispatchToOthers(s, d, order);
            if x == d then mid else Spec.Dispatch(mid, x)
    decreases |order|
  {
    if order == [] {
      assert order + [x] == [x];
    } else {
      var next := if order[0] == d then s else Spec.Dispatch(s, order[0]);
      DispatchToOthersAppend(next, d, order[1..], x);
      assert (order + [x])[1..] == order[1..] + [x];
    }
  }

  class ServerHandler {
    var uuids: set<Id>
    var torrentDeque: seq<Torrent>
    var tasks: map<Id, seq<Spec.TaskType>>
    var t2DownloadMap: map<Id, seq<Torrent>>
    var t2UpdateMap: map<Id, seq<Torrent>>
    var isFirst: bool

    function State(): Spec.Server
      reads this
    {
      Spec.Server(uuids, torrentDeque, tasks, t2DownloadMap, t2UpdateMap, isFirst)
    }

    constructor ()
      ensures State() == Spec.FRESH
    {
      uuids, torrentDeque, tasks := {}, [], map[];
      t2DownloadMap, t2UpdateMap, isFirst := map[], map[], true;
    }

    method AddTask(d: Id, k: Spec.TaskType)
      modifies this
      ensures State() == Spec.AddTask(old(State()), d, k)
      ensures tasks == old(tasks)[d := (if d in old(tasks) then old(tasks)[d] else []) + [k]]
    {
      if d in tasks {
        tasks := tasks[d := tasks[d] + [k]];
      } else {
        tasks := tasks[d := [k]];
        assert [] + [k] == [k];
      }
    }

    method DownloadTorrent(d: Id)
      modifies this
      ensures State() == Spec.Dispatch(old(State()), d)
      ensures old(torrentDeque) == [] ==> State() == old(State())
      ensures old(torrentDeque) != [] ==>
                && torrentDeque == old(torrentDeque)[1..]
                && t2DownloadMap == old(t2DownloadMap)[d := Upsert(if d in old(t2DownloadMap) then old(t2DownloadMap)[d]
                                                                   else [], old(torrentDeque)[0])]
    {
      if torrentDeque != [] {
        t2DownloadMap := UpdateOrAddTorrent(d, t2DownloadMap, torrentDeque[0]);
        torrentDeque := torrentDeque[1..];
        AddTask(d, Spec.DownloadTorrent);
      }
    }

    /** Every daemon is authorized, and told its own id. */
    method Handshake(d: Id) returns (info: DaemonInfo)
      modifies this
      ensures info == DaemonInfo(d, "Some tocken", OK)
      ensures State() == Spec.Handshake(old(State()), d)
    {
      info := DaemonInfo(d, "Some tocken", OK);
      uuids := uuids + {d};
      if isFirst {
        AddTask(d, Spec.GenerateMagnet);
        AddTask(d, Spec.UpdateTorrentStatus);
        isFirst := false;
      } else {
        DownloadTorrent(d);
      }
    }

    /** The loop over the registered daemons; `order` is the walk this call happened to make. */
    method DownloadTorrentToOthers(d: Id) returns (ghost order: seq<Id>)
      modifies this
      ensures Walks(order, old(uuids))
      ensures State() == Spec.DispatchToOthers(old(State()), d, order)
    {
      order := [];
      ghost var s0 := State();
      var all, rest := uuids, uuids;
      while rest != {}
        invariant rest <= all && uuids == all
        invariant Walks(order, all - rest)
        invariant State() == Spec.DispatchToOthers(s0, d, order)
        decreases |rest|
      {
        var x :| x in rest;
        if x != d {
          DownloadTorrent(x);
        }
        DispatchToOthersAppend(s0, d, order, x);
        WalkOn(order, all - rest, x);
        order := order + [x];
        assert all - rest + {x} == all - (rest - {x});
        rest := rest - {x};
      }
      assert all - {} == all;
    }

    method UpdateTorrentStatus(d: Id, t: Torrent) returns (ghost order: seq<Id>)
      modifies this
      ensures Walks(order, old(uuids))
      ensures State() == Spec.Report(old(State()), d, t, order)
    {
      order := Walk(uuids);
      match t.status {
        case Generated =>
          if t.link != "" {
            torrentDeque := torrentDeque + [t];
            t2UpdateMap := RemoveTorrent(d, t2UpdateMap, t);
            order := DownloadTorrentToOthers(d);
          }
        case Downloaded => t2UpdateMap := RemoveTorrent(d, t2UpdateMap, t);
        case _ => AddTask(d, Spec.UpdateTorrentStatus);
      }
    }

    method GetTaskList(d: Id) returns (list: seq<Spec.TaskType>)
      modifies this
      ensures list == Spec.TasksOf(old(State()), d)
      ensures State() == Spec.TakeTasks(old(State()), d)
    {
      list := [];
      if d in tasks {
        list := tasks[d];
        tasks := tasks - {d};
      } else {
        assert tasks == tasks - {d};
      }
    }

    method GetInfoForGenerateTorrents(d: Id, newId: Id) returns (list: seq<Torrent>)
      modifies this
      ensures list == [Spec.Order(old(State()), d, newId)]
      ensures list == [if d in old(uuids) then Torrent(newId, "", "", NoStatus, 0, "/opt/VerAI/projects/1")
                       else Torrent("", "", "", NoStatus, 0, "")]
      ensures State() == Spec.TakeOrder(old(State()), d, newId)
    {
      var t := Torrent("", "", "", NoStatus, 0, "");
      if d in uuids {
        t := t.(id := newId, project := Spec.PROJECT);
        t2UpdateMap := UpdateOrAddTorrent(d, t2UpdateMap, t);
        assert UpsertAll(Spec.UpdatesOf(old(State()), d), [t]) == Upsert(Spec.UpdatesOf(old(State()), d), t);
      }
      list := [t];
    }

    method GetTorrentsForUpdateStatus(d: Id) returns (list: seq<Torrent>)
      ensures list == Spec.UpdatesOf(State(), d)
    {
      list := if d in t2UpdateMap then t2UpdateMap[d] else [];
    }

    method GetTorrentsForDownload(d: Id) returns (list: seq<Torrent>)
      modifies this
      ensures list == Spec.DownloadsOf(old(State()), d)
      ensures State() == Spec.TakeDownloads(old(State()), d)
    {
      list := [];
      if d in t2DownloadMap {
        var pending := t2DownloadMap[d];
        ghost var s0 := State();
        for i := 0 to |pending|
          invariant list == pending[..i]
          invariant State() == Spec.AddUpdates(s0, d, pending[..i])
        {
          AddUpdatesStep(s0, d, pending, i);
          t2UpdateMap := UpdateOrAddTorrent(d, t2UpdateMap, pending[i]);
          list := list + [pending[i]];
        }
        assert pending[..|pending|] == pending;
        t2DownloadMap := t2DownloadMap - {d};
        AddTask(d, Spec.UpdateTorrentStatus);
      }
    }
  }

  lemma AddUpdatesStep(s: Spec.Server, d: Id, list: seq<Torrent>, i: nat)
    requires i < |list|
    ensures var mid := Spec.AddUpdates(s, d, list[..i]);
            Spec.AddUpdates(s, d, list[..i + 1]) ==
            mid.(updates := mid.updates[d := Upsert(Spec.UpdatesOf(mid, d), list[i])])
  {
    UpsertAllStep(Spec.UpdatesOf(s, d), list, i);
  }
}
