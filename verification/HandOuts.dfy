/** What daemons are handed, descriptor by descriptor: exactly what was reported, unchanged. */
module HandOuts {
  import opened Torrents
  import opened ServerSpec
  import opened Protocol
  import opened ProtocolProofs

  // ---- Members of the lists ----

  lemma {:induction false} UpsertMembers(list: seq<Torrent>, t: Torrent)
    ensures t in Upsert(list, t) && forall x :: x in Upsert(list, t) ==> x in list || x == t
    decreases |list|
  {
    if list != [] {
      assert list == [list[0]] + list[1..];
      if list[0].id != t.id { UpsertMembers(list[1..], t); }
    }
  }

  lemma {:induction false} UpsertAllMembers(list: seq<Torrent>, more: seq<Torrent>)
    ensures forall x :: x in UpsertAll(list, more) ==> x in list || x in more
    decreases |more|
  {
    if more != [] {
      assert more == [more[0]] + more[1..];
      UpsertMembers(list, more[0]);
      UpsertAllMembers(Upsert(list, more[0]), more[1..]);
    }
  }

  lemma {:induction false} RemoveMembers(list: seq<Torrent>, t: Torrent)
    ensures forall x :: x in Remove(list, t) ==> x in list
    decreases |list|
  {
    if list != [] {
      assert list == [list[0]] + list[1..];
      if list[0].id != t.id { RemoveMembers(list[1..], t); }
    }
  }

  // ---- The lists against the ledger ----

  /** A torrent as it is when a daemon has been asked to generate it. */
  predicate IsOrdered(t: Torrent) {
    t == Torrent(t.id, "", "", NoStatus, 0, "/opt/VerAI/projects/1")
  }

  ghost predicate TracedAt(s: Server, l: Ledger, d: Id) {
    && (forall t :: t in DownloadsOf(s, d) ==> (d, t) in l.dispatched)
    && (forall t :: t in UpdatesOf(s, d) ==> (d, t) in l.dispatched || IsOrdered(t))
  }

  /** Every descriptor listed for a daemon is one that was dispatched to it, or a freshly ordered one. */
  ghost predicate Traced(s: Server, l: Ledger) {
    forall d :: TracedAt(s, l, d)
  }

  lemma DispatchTraced(s: Server, l: Ledger, x: Id)
    requires Traced(s, l)
    ensures Traced(Dispatch(s, x), BookDispatch(s, l, x))
  {
    forall d ensures TracedAt(Dispatch(s, x), BookDispatch(s, l, x), d) {
      assert TracedAt(s, l, d);
      if s.deque != [] { UpsertMembers(DownloadsOf(s, x), s.deque[0]); }
    }
  }

  lemma {:induction false} DispatchToOthersTraced(s: Server, l: Ledger, x: Id, order: seq<Id>)
    requires Traced(s, l)
    ensures Traced(DispatchToOthers(s, x, order), BookDispatchToOthers(s, l, x, order))
    decreases |order|
  {
    hide Traced;
    if order != [] {
      if order[0] == x {
        DispatchToOthersTraced(s, l, x, order[1..]);
      } else {
        DispatchTraced(s, l, order[0]);
        DispatchToOthersTraced(Dispatch(s, order[0]), BookDispatch(s, l, order[0]), x, order[1..]);
      }
    }
  }

  /** A server whose lists hold no more than another's is traced by a ledger that has dispatched the same. */
  lemma FewerTraced(s: Server, s': Server, l: Ledger, l': Ledger)
    requires Traced(s, l) && l'.dispatched == l.dispatched
    requires forall d, t :: t in DownloadsOf(s', d) ==> t in DownloadsOf(s, d)
    requires forall d, t :: t in UpdatesOf(s', d) ==> t in UpdatesOf(s, d) || (d, t) in l.dispatched || IsOrdered(t)
    ensures Traced(s', l')
  {
    forall d ensures TracedAt(s', l', d) { assert TracedAt(s, l, d); }
  }

  lemma ReportTraced(s: Server, l: Ledger, d: Id, t: Torrent, order: seq<Id>)
    requires Traced(s, l)
    ensures Traced(Report(s, d, t, order), Book(s, l, CallReport(d, t, order)))
  {
    RemoveMembers(UpdatesOf(s, d), t);
    if t.status.Generated? && t.link != "" {
      var s1, l1 := RemoveUpdate(s.(deque := s.deque + [t]), d, t),
                    l.(pushed := l.pushed + [t], open := l.open - {(d, t.id)});
      FewerTraced(s, s1, l, l1);
      DispatchToOthersTraced(s1, l1, d, order);
    } else {
      FewerTraced(s, Report(s, d, t, order), l, Book(s, l, CallReport(d, t, order)));
    }
  }

  lemma TakeDownloadsTraced(s: Server, l: Ledger, d: Id)
    requires Traced(s, l)
    ensures Traced(TakeDownloads(s, d), l)
  {
    assert TracedAt(s, l, d);
    if d in s.downloads {
      UpsertAllMembers(UpdatesOf(s, d), s.downloads[d]);
      FewerTraced(s, TakeDownloads(s, d), l, l);
    }
  }

  lemma CallTraced(s: Server, l: Ledger, c: Call)
    requires Traced(s, l)
    ensures Traced(After(s, c), Book(s, l, c))
  {
    match c
    case CallHandshake(d) =>
      var s1 := s.(uuids := s.uuids + {d});
      FewerTraced(s, s1, l, l);
      DispatchTraced(s1, l, d);
      if s.first { FewerTraced(s, Handshake(s, d), l, l); }
    case CallReport(d, t, order) => ReportTraced(s, l, d, t, order);
    case CallOrder(d, newId) =>
      UpsertAllMembers(UpdatesOf(s, d), [Order(s, d, newId)]);
      FewerTraced(s, After(s, c), l, l);
    case CallDownloads(d) => TakeDownloadsTraced(s, l, d);
    case _ => FewerTraced(s, After(s, c), l, l);
  }

  lemma {:induction false} ServeTraced(s: Server, l: Ledger, calls: seq<Call>)
    requires Traced(s, l)
    ensures Traced(Serve(s, calls), Audit(s, l, calls))
    decreases |calls|
  {
    hide Traced;
    if calls != [] {
      CallTraced(s, l, calls[0]);
      ServeTraced(After(s, calls[0]), Book(s, l, calls[0]), calls[1..]);
    }
  }

  /** Whatever calls a fresh server receives: what a daemon's download list holds was dispatched to it, field for
      field; what its update list holds was too, or was ordered from it and has only its id and project. */
  lemma ListsAreTraced(calls: seq<Call>, d: Id, t: Torrent)
    ensures var s, l := Serve(FRESH, calls), Audit(FRESH, BLANK, calls);
            && (t in DownloadsOf(s, d) ==> (d, t) in l.dispatched)
            && (t in UpdatesOf(s, d) ==>
                  (d, t) in l.dispatched || t == Torrent(t.id, "", "", NoStatus, 0, "/opt/VerAI/projects/1"))
  {
    assert Traced(FRESH, BLANK);
    ServeTraced(FRESH, BLANK, calls);
    assert TracedAt(Serve(FRESH, calls), Audit(FRESH, BLANK, calls), d);
  }

  /** A report that its torrent is finished takes exactly that torrent out of the daemon's update list; any other
      report leaves the list as it is. */
  lemma FinishedLeaves(s: Server, d: Id, t: Torrent, order: seq<Id>)
    requires UniqueLists(s)
    ensures var before, after := AsMap(UpdatesOf(s, d)), AsMap(UpdatesOf(Report(s, d, t, order), d));
            && (t.status == Downloaded || (t.status == Generated && t.link != "") ==> after == before - {t.id})
            && (t.status != Downloaded && (t.status != Generated || t.link == "") ==> after == before)
  {
    ReportOwn(s, d, t, order);
    RemoveRefines(UpdatesOf(s, d), t);
  }

  /** A daemon that fetches its downloads has them all in its update list, as they were handed out, and none left to
      download. */
  lemma FetchedAreUpdated(s: Server, d: Id, t: Torrent)
    requires UniqueLists(s)
    ensures var s' := TakeDownloads(s, d);
            && DownloadsOf(s', d) == []
            && Ids(UpdatesOf(s', d)) == Ids(UpdatesOf(s, d)) + Ids(DownloadsOf(s, d))
            && (t in DownloadsOf(s, d) ==> t in UpdatesOf(s', d))
  {
    if d in s.downloads {
      UpsertAllRefines(UpdatesOf(s, d), s.downloads[d]);
      UpsertAllKeeps(UpdatesOf(s, d), s.downloads[d], t);
    }
  }

  lemma {:induction false} UpsertKeeps(list: seq<Torrent>, x: Torrent, t: Torrent)
    requires t in list && t.id != x.id
    ensures t in Upsert(list, x)
    decreases |list|
  {
    assert list == [list[0]] + list[1..];
    if list[0].id != x.id && t != list[0] { UpsertKeeps(list[1..], x, t); }
  }

  lemma {:induction false} InIds(list: seq<Torrent>, t: Torrent)
    requires t in list
    ensures t.id in Ids(list)
    decreases |list|
  {
    assert list == [list[0]] + list[1..];
    if t != list[0] { InIds(list[1..], t); }
  }

  lemma {:induction false} UpsertAllKeeps(list: seq<Torrent>, more: seq<Torrent>, t: Torrent)
    requires Unique(more)
    ensures t in more ==> t in UpsertAll(list, more)
    ensures t in list && t.id !in Ids(more) ==> t in UpsertAll(list, more)
    decreases |more|
  {
    if more != [] {
      assert more == [more[0]] + more[1..];
      UpsertMembers(list, more[0]);
      if t in list && t.id != more[0].id { UpsertKeeps(list, more[0], t); }
      if t in more[1..] { InIds(more[1..], t); }
      UpsertAllKeeps(Upsert(list, more[0]), more[1..], t);
    }
  }

  // ---- The ledger against the reports of a run ----

  /** What the torrent sessions of the daemons said in the reports of a run. */
  ghost function Said(s: System, run: seq<Event>): set<Torrent>
    requires Legal(s, run)
    decreases |run|
  {
    if run == [] then {}
    else
      var e := run[0];
      (if e.ReportRpc? then
         {Torrent(s.clients[e.d].pc.left[0].id, e.now.link, e.now.torrentFile, e.now.status, e.now.progress,
                  e.now.project)}
       else {})
      + Said(Step(s, e), run[1..])
  }

  /** A generated torrent with a link, as some report said. */
  predicate Offered(t: Torrent, said: set<Torrent>) {
    t in said && t.status.Generated? && t.link != ""
  }

  predicate AllOffered(list: seq<Torrent>, said: set<Torrent>) {
    forall t :: t in list ==> Offered(t, said)
  }

  /** All the server has queued, listed for download or dispatched was offered. */
  ghost predicate Sourced(s: Server, l: Ledger, said: set<Torrent>) {
    && AllOffered(s.deque, said)
    && (forall d :: AllOffered(DownloadsOf(s, d), said))
    && (forall p :: p in l.dispatched ==> Offered(p.1, said))
  }

  lemma DispatchSourced(s: Server, l: Ledger, x: Id, said: set<Torrent>)
    requires Sourced(s, l, said)
    ensures Sourced(Dispatch(s, x), BookDispatch(s, l, x), said)
  {
    if s.deque != [] {
      var s' := Dispatch(s, x);
      UpsertMembers(DownloadsOf(s, x), s.deque[0]);
      assert s.deque[0] in s.deque && forall t :: t in s'.deque ==> t in s.deque;
      forall d ensures AllOffered(DownloadsOf(s', d), said) {
        assert AllOffered(DownloadsOf(s, d), said);
      }
    }
  }

  lemma {:induction false} DispatchToOthersSourced(s: Server, l: Ledger, x: Id, order: seq<Id>, said: set<Torrent>)
    requires Sourced(s, l, said)
    ensures Sourced(DispatchToOthers(s, x, order), BookDispatchToOthers(s, l, x, order), said)
    decreases |order|
  {
    hide Sourced;
    if order != [] {
      if order[0] == x {
        DispatchToOthersSourced(s, l, x, order[1..], said);
      } else {
        DispatchSourced(s, l, order[0], said);
        DispatchToOthersSourced(Dispatch(s, order[0]), BookDispatch(s, l, order[0]), x, order[1..], said);
      }
    }
  }

  lemma SameSourced(s: Server, s': Server, l: Ledger, l': Ledger, said: set<Torrent>)
    requires Sourced(s, l, said) && l'.dispatched == l.dispatched
    requires s'.deque == s.deque || AllOffered(s'.deque, said)
    requires forall d :: DownloadsOf(s', d) == DownloadsOf(s, d) || DownloadsOf(s', d) == []
    ensures Sourced(s', l', said)
  {
    forall d ensures AllOffered(DownloadsOf(s', d), said) { assert AllOffered(DownloadsOf(s, d), said); }
  }

  lemma ReportSourced(s: Server, l: Ledger, d: Id, t: Torrent, order: seq<Id>, said: set<Torrent>)
    requires Sourced(s, l, said) && t in said
    ensures Sourced(Report(s, d, t, order), Book(s, l, CallReport(d, t, order)), said)
  {
    if t.status.Generated? && t.link != "" {
      var s1, l1 := RemoveUpdate(s.(deque := s.deque + [t]), d, t),
                    l.(pushed := l.pushed + [t], open := l.open - {(d, t.id)});
      SameSourced(s, s1, l, l1, said);
      DispatchToOthersSourced(s1, l1, d, order, said);
    } else {
      SameSourced(s, Report(s, d, t, order), l, Book(s, l, CallReport(d, t, order)), said);
    }
  }

  lemma CallSourced(s: Server, l: Ledger, c: Call, said: set<Torrent>)
    requires Sourced(s, l, said) && (c.CallReport? ==> c.t in said)
    ensures Sourced(After(s, c), Book(s, l, c), said)
  {
    hide Sourced;
    match c
    case CallHandshake(d) =>
      var s1 := s.(uuids := s.uuids + {d});
      SameSourced(s, s1, l, l, said);
      DispatchSourced(s1, l, d, said);
      if s.first { SameSourced(s, Handshake(s, d), l, l, said); }
    case CallReport(d, t, order) => ReportSourced(s, l, d, t, order, said);
    case _ => SameSourced(s, After(s, c), l, Book(s, l, c), said);
  }

  /** So was all that a client has fetched and not yet started. */
  ghost predicate SourcedClients(s: System, said: set<Torrent>) {
    forall d :: d in s.clients && s.clients[d].pc.Fetched? ==> AllOffered(s.clients[d].pc.starting, said)
  }

  ghost predicate SourcedSystem(s: System, said: set<Torrent>) {
    Sourced(s.server, s.ledger, said) && SourcedClients(s, said)
  }

  lemma SaidMore(s: System, said: set<Torrent>, said': set<Torrent>)
    requires SourcedSystem(s, said) && said <= said'
    ensures SourcedSystem(s, said')
  {
    forall d ensures AllOffered(DownloadsOf(s.server, d), said') {
      assert AllOffered(DownloadsOf(s.server, d), said);
    }
  }

  lemma StepSourcedClients(s: System, e: Event, said: set<Torrent>)
    requires Enabled(s, e) && SourcedSystem(s, said)
    ensures SourcedClients(Step(s, e), said)
  {
    hide After, Book, NextBox;
    if e.DownloadRpc? { assert AllOffered(DownloadsOf(s.server, e.d), said); }
  }

  lemma StepSourced(s: System, e: Event, said: set<Torrent>)
    requires Enabled(s, e) && SourcedSystem(s, said)
    requires e.ReportRpc? ==> Described(s.clients[e.d].pc.left[0], e.now) in said
    ensures SourcedSystem(Step(s, e), said)
  {
    StepSourcedClients(s, e, said);
    if e.DownloadOne? {
      assert AllOffered(s.clients[e.d].pc.starting, said);
      assert s.clients[e.d].pc.starting[0] in s.clients[e.d].pc.starting;
    }
    hide After, Book, Clients, Sourced, SourcedClients;
    if CallOf(s, e).Some? {
      CallSourced(s.server, s.ledger, CallOf(s, e).value, said);
    }
  }

  lemma {:induction false} RunSourced(s: System, run: seq<Event>, said: set<Torrent>)
    requires Legal(s, run) && SourcedSystem(s, said) && Said(s, run) <= said
    ensures SourcedSystem(Final(s, run), said)
    decreases |run|
  {
    hide SourcedSystem;
    if run != [] {
      StepSourced(s, run[0], said);
      RunSourced(Step(s, run[0]), run[1..], said);
    }
  }

  lemma {:induction false} RunTraced(s: System, run: seq<Event>)
    requires Legal(s, run) && Traced(s.server, s.ledger)
    ensures Traced(Final(s, run).server, Final(s, run).ledger)
    decreases |run|
  {
    hide Traced;
    if run != [] {
      if CallOf(s, run[0]).Some? { CallTraced(s.server, s.ledger, CallOf(s, run[0]).value); }
      RunTraced(Step(s, run[0]), run[1..]);
    }
  }

  /** In every run: what is listed for a daemon's download was dispatched to it; and every descriptor dispatched to a
      daemon is, field for field, what some daemon's torrent session said in a report of the run, generated and with a
      link. */
  lemma HandedAsReported(run: seq<Event>, d: Id, t: Torrent)
    requires Legal(INITIAL, run)
    ensures var s := Final(INITIAL, run);
            && (t in DownloadsOf(s.server, d) ==> (d, t) in s.ledger.dispatched)
            && (t in UpdatesOf(s.server, d) ==>
                  (d, t) in s.ledger.dispatched || t == Torrent(t.id, "", "", NoStatus, 0, "/opt/VerAI/projects/1"))
            && ((d, t) in s.ledger.dispatched ==> t in Said(INITIAL, run) && t.status.Generated? && t.link != "")
  {
    var s, said := Final(INITIAL, run), Said(INITIAL, run);
    assert Traced(FRESH, BLANK) && SourcedSystem(INITIAL, said);
    RunTraced(INITIAL, run);
    RunSourced(INITIAL, run, said);
    assert TracedAt(s.server, s.ledger, d);
  }
}
