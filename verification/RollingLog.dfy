/** The rolling file appender over an in-memory directory, proved to hold what `LogSpec` says. */
module RollingLog {
  import opened Common
  import opened LogNames
  import opened LogSpec

  /** A directory: file names to contents. */
  type Dir = map<string, string>

  function Get(fs: Dir, name: string): Option<string> {
    if name in fs then Some(fs[name]) else None
  }

  function Unlink(fs: Dir, name: string): Dir {
    fs - {name}
  }

  /** Renaming a missing file fails and changes nothing; an existing target is replaced. */
  function Rename(fs: Dir, old': string, new': string): Dir {
    if old' in fs then (fs - {old'})[new' := fs[old']] else fs
  }

  datatype Layout = Layout(base: string, ext: string, c: Settings)

  /** The limit is never below 1000 bytes, and at least the current file is kept. */
  function LayoutFor(fileName: string, header: string, maxFileSize: nat, maxFiles: int): Layout {
    var (base, ext) := SplitFileName(fileName);
    Layout(base, ext, Settings(header, if maxFileSize > 1000 then maxFileSize else 1000,
                               if maxFiles - 1 > 0 then maxFiles - 1 else 0))
  }

  function Name(l: Layout, k: nat): string {
    BuildFileName(l.base, l.ext, k)
  }

  lemma NamesApart(l: Layout, j: nat, k: nat)
    requires j != k
    ensures Name(l, j) != Name(l, k)
  {
    if Name(l, j) == Name(l, k) { NamesDiffer(l.base, l.ext, j, k); }
  }

  lemma AllNamesApart(l: Layout)
    ensures forall j: nat, k: nat :: j != k ==> Name(l, j) != Name(l, k)
  {
    forall j: nat, k: nat | j != k ensures Name(l, j) != Name(l, k) { NamesApart(l, j, k); }
  }

  /** What the directory has under the `k`th name, if `files` is the log. */
  function Shown(l: Layout, files: seq<seq<string>>, k: nat): Option<string> {
    if k < |files| then Some(Content(l.c.header, files[k])) else None
  }

  /** The directory holds exactly these files under the log's names. */
  ghost predicate Shows(l: Layout, fs: Dir, files: seq<seq<string>>) {
    |files| <= l.c.last + 1 && forall k: nat :: k <= l.c.last ==> Get(fs, Name(l, k)) == Shown(l, files, k)
  }

  /** The names the log uses. */
  ghost function Family(l: Layout): set<string> {
    set k: nat | k <= l.c.last :: Name(l, k)
  }

  /** Names that are none of the log's keep their files. */
  ghost predicate SameElsewhere(l: Layout, fs: Dir, fs': Dir) {
    fs - Family(l) == fs' - Family(l)
  }

  lemma InFamily(l: Layout, k: nat, fs: Dir, text: string)
    requires k <= l.c.last
    ensures Name(l, k) in Family(l)
    ensures SameElsewhere(l, fs, fs[Name(l, k) := text]) && SameElsewhere(l, fs, Unlink(fs, Name(l, k)))
  {
  }

  /** Where the file now numbered `k` was, once the files numbered from `i` up have moved to the next number. */
  function Moved(l: Layout, fs: Dir, i: nat, k: nat): Option<string> {
    if k < i then Get(fs, Name(l, k)) else if k == i then None else Get(fs, Name(l, k - 1))
  }

  ghost predicate MovedFrom(l: Layout, fs: Dir, fs': Dir, i: nat) {
    SameElsewhere(l, fs, fs') && forall k: nat :: k <= l.c.last ==> Get(fs', Name(l, k)) == Moved(l, fs, i, k)
  }

  lemma UnlinkMoves(l: Layout, fs: Dir)
    ensures MovedFrom(l, fs, Unlink(fs, Name(l, l.c.last)), l.c.last)
  {
    var fs' := Unlink(fs, Name(l, l.c.last));
    InFamily(l, l.c.last, fs, "");
    forall k: nat | k <= l.c.last ensures Get(fs', Name(l, k)) == Moved(l, fs, l.c.last, k) {
      if k != l.c.last { NamesApart(l, k, l.c.last); }
    }
  }

  lemma RenameMoves(l: Layout, fs: Dir, fs': Dir, i: nat)
    requires MovedFrom(l, fs, fs', i + 1) && i < l.c.last
    ensures MovedFrom(l, fs, Rename(fs', Name(l, i), Name(l, i + 1)), i)
  {
    var fs2 := Rename(fs', Name(l, i), Name(l, i + 1));
    assert Get(fs', Name(l, i)) == Moved(l, fs, i + 1, i);
    assert Get(fs', Name(l, i + 1)) == Moved(l, fs, i + 1, i + 1);
    NamesApart(l, i, i + 1);
    InFamily(l, i, fs', "");
    if Name(l, i) in fs' { InFamily(l, i + 1, Unlink(fs', Name(l, i)), fs'[Name(l, i)]); }
    forall k: nat | k <= l.c.last ensures Get(fs2, Name(l, k)) == Moved(l, fs, i, k) {
      if k != i && k != i + 1 {
        NamesApart(l, k, i);
        NamesApart(l, k, i + 1);
        assert Get(fs', Name(l, k)) == Moved(l, fs, i + 1, k);
      }
    }
  }

  /** Once every file has moved, a header in the current file completes the roll. */
  lemma MovedShows(l: Layout, fs: Dir, fs': Dir, files: seq<seq<string>>)
    requires Shows(l, fs, files) && files != [] && MovedFrom(l, fs, fs', 0)
    ensures Shows(l, fs'[Name(l, 0) := l.c.header], AtMost([[]] + files, l.c.last + 1))
  {
    AllNamesApart(l);
    var rolled := AtMost([[]] + files, l.c.last + 1);
    var fs2 := fs'[Name(l, 0) := l.c.header];
    assert Content(l.c.header, []) == l.c.header;
    forall k: nat | k <= l.c.last ensures Get(fs2, Name(l, k)) == Shown(l, rolled, k) {
      if k > 0 {
        assert Get(fs2, Name(l, k)) == Get(fs, Name(l, k - 1)) == Shown(l, files, k - 1);
      }
    }
  }

  /** Adding to the current file adds to the newest list of records. */
  lemma AppendShows(l: Layout, fs: Dir, files: seq<seq<string>>, r: string)
    requires Shows(l, fs, files) && files != []
    ensures Name(l, 0) in fs
    ensures Shows(l, fs[Name(l, 0) := fs[Name(l, 0)] + r], [files[0] + [r]] + files[1..])
  {
    AllNamesApart(l);
    assert Get(fs, Name(l, 0)) == Shown(l, files, 0);
    ContentAppend(l.c.header, files[0], r);
    var files' := [files[0] + [r]] + files[1..];
    forall k: nat | k <= l.c.last
      ensures Get(fs[Name(l, 0) := fs[Name(l, 0)] + r], Name(l, k)) == Shown(l, files', k)
    {
      if 0 < k < |files| { assert files'[k] == files[k]; }
    }
  }

  /** The current file's content once it has been opened: a missing or empty one gets the header. */
  function OpenedContent(l: Layout, fs: Dir): string {
    if Name(l, 0) in fs && fs[Name(l, 0)] != "" then fs[Name(l, 0)] else l.c.header
  }

  lemma OpenedShows(l: Layout, fs: Dir, files: seq<seq<string>>)
    requires Shows(l, fs, files)
    ensures var files' := if files == [] then [[]] else files;
            && Shows(l, fs[Name(l, 0) := OpenedContent(l, fs)], files')
            && OpenedContent(l, fs) == Content(l.c.header, files'[0])
  {
    AllNamesApart(l);
    assert Get(fs, Name(l, 0)) == Shown(l, files, 0);
    assert Content(l.c.header, []) == l.c.header;
    if files == [] {
      forall k: nat | k <= l.c.last
        ensures Get(fs[Name(l, 0) := OpenedContent(l, fs)], Name(l, k)) == Shown(l, [[]], k)
      {
        if k > 0 { assert Get(fs, Name(l, k)) == Shown(l, [], k); }
      }
    } else {
      assert fs[Name(l, 0) := OpenedContent(l, fs)] == fs;
    }
  }

  // ---- The directory after any run ----

  /** The files numbered `k` to `n - 1`, without their headers, oldest first. */
  function Stripped(l: Layout, fs: Dir, k: nat, n: nat): string
    decreases n - k
  {
    if k >= n then "" else
      Stripped(l, fs, k + 1, n) +
      (if Name(l, k) in fs && |fs[Name(l, k)]| >= |l.c.header| then fs[Name(l, k)][|l.c.header|..] else "")
  }

  lemma {:induction false} StrippedIsHeld(l: Layout, fs: Dir, files: seq<seq<string>>, k: nat)
    requires Shows(l, fs, files) && k <= |files|
    ensures Stripped(l, fs, k, |files|) == Concat(Held(files[k..]))
    decreases |files| - k
  {
    if k < |files| {
      StrippedIsHeld(l, fs, files, k + 1);
      assert Get(fs, Name(l, k)) == Shown(l, files, k);
      assert files[k..][1..] == files[k + 1..];
      ConcatAppend(Held(files[k + 1..]), files[k]);
    }
  }

  /** The log's files are numbered 0 to `n - 1`; their contents without headers, oldest first, end the written text
      at a record boundary, after the records `dropped`. Nothing was dropped if and only if no write of the run
      deleted a file; and then the contents are the whole text, and otherwise not, if the header fits in a file. */
  ghost predicate EndsStream(l: Layout, fs: Dir, events: seq<Event>, n: nat, dropped: seq<string>) {
    && n <= l.c.last + 1
    && (forall k: nat :: k <= l.c.last ==> (Name(l, k) in fs <==> k < n))
    && dropped <= Written(events)
    && Concat(Written(events)) == Concat(dropped) + Stripped(l, fs, 0, n)
    && (dropped == [] <==> !Deleted(l.c, EMPTY, events))
    && (|l.c.header| <= l.c.maxSize ==>
          (Stripped(l, fs, 0, n) == Concat(Written(events)) <==> !Deleted(l.c, EMPTY, events)))
  }

  lemma DirectoryIsRecent(l: Layout, fs: Dir, events: seq<Event>) returns (n: nat, dropped: seq<string>)
    requires Shows(l, fs, Run(l.c, EMPTY, events).files)
    ensures EndsStream(l, fs, events, n, dropped)
  {
    var log := Run(l.c, EMPTY, events);
    n := |log.files|;
    dropped := RunRetains(l.c, EMPTY, [], [], false, events);
    assert [] + Written(events) == Written(events);
    StrippedIsHeld(l, fs, log.files, 0);
    assert log.files[0..] == log.files;
    ConcatAppend(dropped, Held(log.files));
    forall k: nat | k <= l.c.last ensures Name(l, k) in fs <==> k < n {
      assert Get(fs, Name(l, k)) == Shown(l, log.files, k);
    }
  }

  lemma {:induction false} RunMore(c: Settings, log: Log, events: seq<Event>, k: nat)
    requires k < |events|
    ensures Run(c, log, events[..k + 1]) == Next(c, Run(c, log, events[..k]), events[k])
    decreases k
  {
    if k > 0 {
      RunMore(c, Next(c, log, events[0]), events[1..], k - 1);
      assert events[..k + 1][1..] == events[1..][..k] && events[..k][1..] == events[1..][..k - 1];
    } else {
      assert events[..1][1..] == [];
    }
  }

  class RollingFileAppender {
    var fs: Dir
    var fileSize: int
    var firstWrite: bool
    const fileNameNoExt: string
    const fileExt: string
    const header: string
    const maxFileSize: nat
    const lastFileNumber: nat
    ghost var files: seq<seq<string>>

    ghost function Plan(): Layout {
      Layout(fileNameNoExt, fileExt, Settings(header, maxFileSize, lastFileNumber))
    }

    ghost function AsLog(): Log
      reads this
    {
      Log(files, !firstWrite)
    }

    ghost predicate Valid()
      reads this
    {
      && Shows(Plan(), fs, files)
      && (!firstWrite ==> files != [] && fileSize == |Content(header, files[0])|)
    }

    /** A new appender on a directory whose files of this log are `files`. */
    constructor (fs: Dir, fileName: string, header: string, maxFileSize: nat, maxFiles: int,
                 ghost files: seq<seq<string>>)
      requires Shows(LayoutFor(fileName, header, maxFileSize, maxFiles), fs, files)
      ensures Valid() && AsLog() == Log(files, false) && this.fs == fs
      ensures Plan() == LayoutFor(fileName, header, maxFileSize, maxFiles)
    {
      var (base, ext) := SplitFileName(fileName);
      this.fileNameNoExt, this.fileExt, this.header := base, ext, header;
      this.maxFileSize := if maxFileSize > 1000 then maxFileSize else 1000;
      lastFileNumber := if maxFiles - 1 > 0 then maxFiles - 1 else 0;
      this.fs, this.files, fileSize, firstWrite := fs, files, 0, true;
    }

    method OpenLogFile()
      modifies this`fs, this`fileSize
      ensures var name := Name(Plan(), 0);
              fs == old(fs)[name := if name in old(fs) && old(fs)[name] != "" then old(fs)[name] else header]
              && fileSize == |fs[name]|
    {
      var name := BuildFileName(fileNameNoExt, fileExt, 0);
      assert name == Name(Plan(), 0);
      if name !in fs { fs := fs[name := ""]; }
      fileSize := |fs[name]|;
      if fileSize == 0 {
        assert "" + header == header;
        fs := fs[name := fs[name] + header];
        fileSize := fileSize + |header|;
      }
    }

    method RollLogFiles()
      requires Valid() && files != []
      modifies this
      ensures Valid() && AsLog() == Log(AtMost([[]] + old(files), lastFileNumber + 1), true)
      ensures SameElsewhere(Plan(), old(fs), fs)
    {
      ghost var l, fs0 := Plan(), fs;
      fs := Unlink(fs, BuildFileName(fileNameNoExt, fileExt, lastFileNumber));
      UnlinkMoves(l, fs0);
      for i := lastFileNumber downto 0
        invariant MovedFrom(l, fs0, fs, i)
        invariant l == Plan() && files == old(files) && firstWrite == old(firstWrite)
      {
        RenameMoves(l, fs0, fs, i);
        fs := Rename(fs, BuildFileName(fileNameNoExt, fileExt, i), BuildFileName(fileNameNoExt, fileExt, i + 1));
      }
      MovedShows(l, fs0, fs, files);
      assert Get(fs, Name(l, 0)) == Moved(l, fs0, 0, 0);
      InFamily(l, 0, fs, header);
      OpenLogFile();
      firstWrite := false;
      files := AtMost([[]] + files, lastFileNumber + 1);
      assert Content(header, []) == header;
    }

    /** `text` is the formatted and converted record. */
    method Write(text: string)
      requires Valid()
      modifies this
      ensures Valid() && AsLog() == LogSpec.Write(Plan().c, old(AsLog()), text)
      ensures SameElsewhere(Plan(), old(fs), fs)
    {
      ghost var l := Plan();
      if firstWrite {
        OpenedShows(l, fs, files);
        InFamily(l, 0, fs, OpenedContent(l, fs));
        OpenLogFile();
        if files == [] { files := [[]]; }
        firstWrite := false;
      } else if lastFileNumber > 0 && fileSize > maxFileSize && -1 != fileSize {
        RollLogFiles();
      }
      Append(text);
    }

    /** The file's own `write`, and the size it adds. */
    method Append(text: string)
      requires Valid() && !firstWrite
      modifies this`fs, this`fileSize, this`files
      ensures Valid() && files == [old(files)[0] + [text]] + old(files)[1..]
      ensures SameElsewhere(Plan(), old(fs), fs)
    {
      AppendShows(Plan(), fs, files, text);
      var name := BuildFileName(fileNameNoExt, fileExt, 0);
      InFamily(Plan(), 0, fs, fs[name] + text);
      fs := fs[name := fs[name] + text];
      fileSize := fileSize + |text|;
      ContentAppend(header, files[0], text);
      files := [files[0] + [text]] + files[1..];
    }
  }

  /** The directory is as the arguments ask: at most `maxFiles` files, but at least one; each begins with the header;
      each but the current one is over `maxFileSize`, and over 1000 bytes; and one file holds the whole text. */
  ghost predicate Configured(l: Layout, fs: Dir, events: seq<Event>, n: nat, header: string, maxFileSize: nat,
                             maxFiles: int) {
    && n <= (if maxFiles > 1 then maxFiles else 1)
    && (forall k: nat :: k < n ==> Name(l, k) in fs && header <= fs[Name(l, k)])
    && (forall k: nat :: 1 <= k < n ==> |fs[Name(l, k)]| > maxFileSize && |fs[Name(l, k)]| > 1000)
    && (maxFiles <= 1 ==> n <= 1 && Stripped(l, fs, 0, n) == Concat(Written(events)))
  }

  lemma ArgumentsKept(l: Layout, fs: Dir, events: seq<Event>, n: nat, dropped: seq<string>, fileName: string,
                      header: string, maxFileSize: nat, maxFiles: int)
    requires l == LayoutFor(fileName, header, maxFileSize, maxFiles)
    requires Shows(l, fs, Run(l.c, EMPTY, events).files) && EndsStream(l, fs, events, n, dropped)
    ensures Configured(l, fs, events, n, header, maxFileSize, maxFiles)
  {
    var files := Run(l.c, EMPTY, events).files;
    RunArchives(l.c, EMPTY, events);
    forall k: nat | k < n
      ensures Name(l, k) in fs && header <= fs[Name(l, k)]
      ensures k >= 1 ==> |fs[Name(l, k)]| > maxFileSize && |fs[Name(l, k)]| > 1000
    {
      assert Get(fs, Name(l, k)) == Shown(l, files, k);
    }
    if maxFiles <= 1 {
      OneFileKeepsAll(l.c, EMPTY, events);
      assert Concat([]) + Stripped(l, fs, 0, n) == Stripped(l, fs, 0, n);
    }
  }

  /** A program that logs: it writes records, and at each restart makes a new appender on the directory it left. */
  method LogAll(fileName: string, header: string, maxFileSize: nat, maxFiles: int, events: seq<Event>)
    returns (fs: Dir)
    ensures var l := LayoutFor(fileName, header, maxFileSize, maxFiles);
            && Shows(l, fs, Run(l.c, EMPTY, events).files)
            && exists n, dropped ::
                 EndsStream(l, fs, events, n, dropped) && Configured(l, fs, events, n, header, maxFileSize, maxFiles)
  {
    ghost var l := LayoutFor(fileName, header, maxFileSize, maxFiles);
    var a := new RollingFileAppender(map[], fileName, header, maxFileSize, maxFiles, []);
    for i := 0 to |events|
      invariant fresh(a) && a.Valid() && a.Plan() == l && a.AsLog() == Run(l.c, EMPTY, events[..i])
    {
      RunMore(l.c, EMPTY, events, i);
      match events[i]
      case Record(r) => a.Write(r);
      case Restart => a := new RollingFileAppender(a.fs, fileName, header, maxFileSize, maxFiles, a.files);
    }
    assert events[..|events|] == events;
    fs := a.fs;
    ghost var n, dropped := DirectoryIsRecent(l, fs, events);
    ArgumentsKept(l, fs, events, n, dropped, fileName, header, maxFileSize, maxFiles);
  }
}
