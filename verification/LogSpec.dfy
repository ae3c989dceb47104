/** What a rolling log holds: its files, newest first, each a list of records. */
module LogSpec {
  import opened Common

  datatype Settings = Settings(header: string, maxSize: nat, last: nat)

  function Concat(records: seq<string>): string {
    if records == [] then "" else Concat(records[..|records| - 1]) + records[|records| - 1]
  }

  function Content(header: string, records: seq<string>): string {
    header + Concat(records)
  }

  lemma ContentAppend(header: string, records: seq<string>, r: string)
    ensures Content(header, records + [r]) == Content(header, records) + r
  {
    assert (records + [r])[..|records + [r]| - 1] == records;
  }

  /** `begun` tells whether the running appender has written yet; a new appender has not. */
  datatype Log = Log(files: seq<seq<string>>, begun: bool)

  const EMPTY := Log([], false)

  function AtMost<T>(s: seq<T>, n: nat): seq<T> {
    if |s| > n then s[..n] else s
  }

  predicate Rolls(c: Settings, log: Log) {
    log.begun && log.files != [] && c.last > 0 && |Content(c.header, log.files[0])| > c.maxSize
  }

  /** The files a record is added to: a new one in front when the log rolls, and the oldest dropped. */
  function Ready(c: Settings, log: Log): (files: seq<seq<string>>)
    ensures files != []
  {
    if log.files == [] then [[]]
    else if Rolls(c, log) then AtMost([[]] + log.files, c.last + 1)
    else log.files
  }

  function Write(c: Settings, log: Log, r: string): Log {
    var files := Ready(c, log);
    Log([files[0] + [r]] + files[1..], true)
  }

  datatype Event = Record(text: string) | Restart

  function Next(c: Settings, log: Log, e: Event): Log {
    match e
    case Record(r) => Write(c, log, r)
    case Restart => log.(begun := false)
  }

  function Run(c: Settings, log: Log, events: seq<Event>): Log
    decreases |events|
  {
    if events == [] then log else Run(c, Next(c, log, events[0]), events[1..])
  }

  /** The write rolls a log that already has all the files it may keep: the oldest is deleted. */
  predicate Deletes(c: Settings, log: Log, e: Event) {
    e.Record? && Rolls(c, log) && |log.files| == c.last + 1
  }

  /** Some write of the run deletes a file. */
  predicate Deleted(c: Settings, log: Log, events: seq<Event>)
    decreases |events|
  {
    events != [] && (Deletes(c, log, events[0]) || Deleted(c, Next(c, log, events[0]), events[1..]))
  }

  function Written(events: seq<Event>): seq<string> {
    if events == [] then []
    else (if events[0].Record? then [events[0].text] else []) + Written(events[1..])
  }

  /** All records still held, oldest first. */
  function Held(files: seq<seq<string>>): seq<string> {
    if files == [] then [] else Held(files[1..]) + files[0]
  }

  lemma {:induction false} HeldSplit(files: seq<seq<string>>, n: nat)
    requires n <= |files|
    ensures Held(files) == Held(files[n..]) + Held(files[..n])
    decreases n
  {
    if n > 0 {
      HeldSplit(files[1..], n - 1);
      assert files[1..][n - 1..] == files[n..] && files[1..][..n - 1] == files[..n][1..];
    }
  }

  /** Every file but the newest is over the limit. */
  predicate Archived(c: Settings, log: Log) {
    forall k :: 1 <= k < |log.files| ==> |Content(c.header, log.files[k])| > c.maxSize
  }

  lemma WriteArchives(c: Settings, log: Log, r: string)
    requires Archived(c, log)
    ensures Archived(c, Write(c, log, r))
  {
    var files := Ready(c, log);
    forall k | 1 <= k < |files| ensures |Content(c.header, files[k])| > c.maxSize {
      if Rolls(c, log) { assert files[k] == log.files[k - 1]; }
    }
  }

  /** The held records are the end of everything written, cut between records; something was dropped exactly if a
      file was deleted, and then it was text, unless the header alone fills a file. */
  ghost predicate Retains(c: Settings, log: Log, dropped: seq<string>, written: seq<string>, deleted: bool) {
    && written == dropped + Held(log.files)
    && |log.files| <= c.last + 1
    && (forall k :: 0 <= k < |log.files| ==> log.files[k] != [])
    && Archived(c, log)
    && (deleted <==> dropped != [])
    && (deleted && |c.header| <= c.maxSize ==> Concat(dropped) != "")
  }

  lemma {:induction false} ConcatAppend(a: seq<string>, b: seq<string>)
    ensures Concat(a + b) == Concat(a) + Concat(b)
    decreases |b|
  {
    if b == [] {
      assert a + b == a;
    } else {
      var b' := b[..|b| - 1];
      assert (a + b)[..|a + b| - 1] == a + b';
      ConcatAppend(a, b');
    }
  }

  /** The records that adding a record drops: those of the oldest file, if it is deleted. */
  function Dropped(c: Settings, log: Log, r: string): seq<string> {
    if Deletes(c, log, Record(r)) then log.files[c.last] else []
  }

  lemma ReadyHolds(c: Settings, log: Log, r: string)
    requires |log.files| <= c.last + 1
    ensures Dropped(c, log, r) + Held(Ready(c, log)) == Held(log.files)
  {
    var longer := [[]] + log.files;
    assert longer[1..] == log.files;
    if Deletes(c, log, Record(r)) {
      HeldSplit(longer, c.last + 1);
      assert longer[c.last + 1..] == [log.files[c.last]];
      assert Held([log.files[c.last]]) == log.files[c.last];
    }
  }

  lemma WriteHolds(c: Settings, log: Log, r: string)
    requires |log.files| <= c.last + 1
    ensures Dropped(c, log, r) + Held(Write(c, log, r).files) == Held(log.files) + [r]
  {
    var files, files' := Ready(c, log), Write(c, log, r).files;
    ReadyHolds(c, log, r);
    assert files'[1..] == files[1..];
    assert Held(files') == Held(files) + [r];
  }

  lemma {:induction false} WriteRetains(c: Settings, log: Log, dropped: seq<string>, written: seq<string>,
                                        deleted: bool, r: string)
    requires Retains(c, log, dropped, written, deleted)
    ensures Retains(c, Write(c, log, r), dropped + Dropped(c, log, r), written + [r],
                    deleted || Deletes(c, log, Record(r)))
  {
    var more := Dropped(c, log, r);
    WriteHolds(c, log, r);
    WriteArchives(c, log, r);
    ConcatAppend(dropped, more);
    Cat(dropped, Held(log.files), [r]);
    Cat(dropped, more, Held(Write(c, log, r).files));
    var files := Ready(c, log);
    forall k | 1 <= k < |files| ensures files[k] != [] {
      if Rolls(c, log) { assert files[k] == log.files[k - 1]; }
    }
  }

  lemma {:induction false} RunRetains(c: Settings, log: Log, dropped: seq<string>, written: seq<string>,
                                      deleted: bool, events: seq<Event>) returns (dropped': seq<string>)
    requires Retains(c, log, dropped, written, deleted)
    ensures Retains(c, Run(c, log, events), dropped', written + Written(events),
                    deleted || Deleted(c, log, events))
    decreases |events|
  {
    if events == [] {
      dropped' := dropped;
      assert written + Written(events) == written;
    } else {
      var log' := Next(c, log, events[0]);
      match events[0]
      case Record(r) =>
        WriteRetains(c, log, dropped, written, deleted, r);
        dropped' := RunRetains(c, log', dropped + Dropped(c, log, r), written + [r],
                               deleted || Deletes(c, log, Record(r)), events[1..]);
        assert written + [r] + Written(events[1..]) == written + ([r] + Written(events[1..]));
      case Restart =>
        dropped' := RunRetains(c, log', dropped, written, deleted, events[1..]);
        assert written + ([] + Written(events[1..])) == written + Written(events[1..]);
    }
  }

  /** From an empty directory, over any writes and restarts: the held records, oldest first, are the end of the
      written stream, and all of it if and only if no write so far has deleted a file. */
  lemma HeldIsRecent(c: Settings, events: seq<Event>)
    ensures var log, written := Run(c, EMPTY, events), Written(events);
            && |log.files| <= c.last + 1
            && |Held(log.files)| <= |written|
            && Held(log.files) == written[|written| - |Held(log.files)|..]
            && (Held(log.files) == written <==> !Deleted(c, EMPTY, events))
  {
    assert Retains(c, EMPTY, [], [], false);
    var dropped := RunRetains(c, EMPTY, [], [], false, events);
    assert [] + Written(events) == Written(events);
  }

  /** With only the current file kept, nothing is ever deleted. */
  lemma {:induction false} OneFileKeepsAll(c: Settings, log: Log, events: seq<Event>)
    requires c.last == 0
    ensures !Deleted(c, log, events)
    decreases |events|
  {
    if events != [] { OneFileKeepsAll(c, Next(c, log, events[0]), events[1..]); }
  }

  // ---- Sizes ----

  /** No file exceeds the limit by more than the longest record. */
  predicate Bounded(c: Settings, log: Log, longest: nat) {
    forall k :: 0 <= k < |log.files| ==> |Content(c.header, log.files[k])| <= c.maxSize + longest
  }

  /** A write keeps the files bounded if and only if it opens the log's first file, rolls, or still fits. Within
      one appender's run it always does; a new appender, which does not roll before its first write, may not. */
  lemma WriteBoundsIff(c: Settings, log: Log, r: string, longest: nat)
    requires Bounded(c, log, longest) && |r| <= longest && |c.header| <= c.maxSize
    ensures Bounded(c, Write(c, log, r), longest) <==>
              log.files == [] || Rolls(c, log) || |Content(c.header, log.files[0])| + |r| <= c.maxSize + longest
  {
    var files := Ready(c, log);
    var files' := Write(c, log, r).files;
    ContentAppend(c.header, files[0], r);
    assert Content(c.header, []) == c.header;
    hide Content;
    forall k | 1 <= k < |files| ensures |Content(c.header, files'[k])| <= c.maxSize + longest {
      if Rolls(c, log) { assert files[k] == log.files[k - 1]; }
    }
    assert files'[0] == files[0] + [r];
  }

  /** The write puts more into the current file than the bound allows. */
  predicate Overfills(c: Settings, log: Log, e: Event, longest: nat) {
    && e.Record? && log.files != [] && !Rolls(c, log)
    && |Content(c.header, log.files[0])| + |e.text| > c.maxSize + longest
  }

  predicate NeverOverfills(c: Settings, log: Log, events: seq<Event>, longest: nat)
    decreases |events|
  {
    events == [] ||
    (!Overfills(c, log, events[0], longest) && NeverOverfills(c, Next(c, log, events[0]), events[1..], longest))
  }

  /** The files are bounded now and after every event of the run. */
  predicate AlwaysBounded(c: Settings, log: Log, events: seq<Event>, longest: nat)
    decreases |events|
  {
    Bounded(c, log, longest) && (events == [] || AlwaysBounded(c, Next(c, log, events[0]), events[1..], longest))
  }

  predicate NoLonger(events: seq<Event>, longest: nat) {
    forall i :: 0 <= i < |events| && events[i].Record? ==> |events[i].text| <= longest
  }

  /** Over any writes and restarts: archived files stay over the limit, and no file ever exceeds it by more than the
      longest record if and only if no write overfills the current file. */
  lemma {:induction false} SizesStayBoundedIff(c: Settings, log: Log, events: seq<Event>, longest: nat)
    requires |c.header| <= c.maxSize && NoLonger(events, longest)
    requires Archived(c, log) && Bounded(c, log, longest)
    ensures Archived(c, Run(c, log, events))
    ensures AlwaysBounded(c, log, events, longest) <==> NeverOverfills(c, log, events, longest)
    decreases |events|
  {
    if events != [] {
      var e, log' := events[0], Next(c, log, events[0]);
      if e.Record? {
        WriteArchives(c, log, e.text);
        WriteBoundsIff(c, log, e.text, longest);
      }
      assert Bounded(c, log', longest) <==> !Overfills(c, log, e, longest);
      if Bounded(c, log', longest) {
        SizesStayBoundedIff(c, log', events[1..], longest);
      } else {
        RunArchives(c, log', events[1..]);
        NotBounded(c, log', events[1..], longest);
      }
    }
  }

  lemma NotBounded(c: Settings, log: Log, events: seq<Event>, longest: nat)
    requires !Bounded(c, log, longest)
    ensures !AlwaysBounded(c, log, events, longest)
  {
  }

  lemma {:induction false} RunArchives(c: Settings, log: Log, events: seq<Event>)
    requires Archived(c, log)
    ensures Archived(c, Run(c, log, events))
    decreases |events|
  {
    if events != [] {
      if events[0].Record? { WriteArchives(c, log, events[0].text); }
      RunArchives(c, Next(c, log, events[0]), events[1..]);
    }
  }

  /** A new appender that starts within the limit, or one that has begun, never overfills with rolling enabled. */
  predicate StartsLow(c: Settings, log: Log) {
    log.begun || log.files == [] || |Content(c.header, log.files[0])| <= c.maxSize
  }

  /** So with rolling enabled and a base file that starts within the limit, one appender's files stay bounded. */
  lemma {:induction false} SizesStayBounded(c: Settings, log: Log, texts: seq<Event>, longest: nat)
    requires c.last > 0 && |c.header| <= c.maxSize && NoLonger(texts, longest) && Restart !in texts
    requires Archived(c, log) && Bounded(c, log, longest) && StartsLow(c, log)
    ensures Archived(c, Run(c, log, texts)) && AlwaysBounded(c, log, texts, longest)
    decreases |texts|
  {
    if texts != [] {
      assert texts[0] in texts;
      WriteArchives(c, log, texts[0].text);
      WriteBoundsIff(c, log, texts[0].text, longest);
      SizesStayBounded(c, Next(c, log, texts[0]), texts[1..], longest);
    }
  }

  /** A restart breaks the bound: two records that together pass the limit, and a third from the new appender. */
  lemma {:induction false} RestartOverfills(c: Settings, r: string)
    requires |c.header| + |r| <= c.maxSize < |c.header| + 2 * |r|
    ensures !Bounded(c, Run(c, EMPTY, [Record(r), Record(r), Restart, Record(r)]), |r|)
  {
    var log := Log([[r]], true);
    var events := [Record(r), Record(r), Restart, Record(r)];
    ContentAppend(c.header, [], r);
    ContentAppend(c.header, [r], r);
    ContentAppend(c.header, [r, r], r);
    assert Content(c.header, []) == c.header;
    assert [] + [r] == [r] && [r] + [r] == [r, r] && [r, r] + [r] == [r, r, r];
    assert Next(c, EMPTY, events[0]) == log;
    assert Next(c, log, events[1]) == Log([[r, r]], true);
    assert Next(c, Log([[r, r]], false), events[3]) == Log([[r, r, r]], true);
    assert Run(c, EMPTY, events) == Run(c, log, events[1..]);
    assert events[1..][1..] == [Restart, Record(r)];
    assert Run(c, log, events[1..]) == Run(c, Log([[r, r]], true), [Restart, Record(r)]);
    assert [Restart, Record(r)][1..] == [Record(r)] && [Record(r)][1..] == [];
    assert Run(c, Log([[r, r]], false), [Record(r)]) == Log([[r, r, r]], true);
    assert Run(c, EMPTY, events).files[0] == [r, r, r];
  }
}
