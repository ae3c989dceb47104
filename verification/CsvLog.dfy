/** The CSV row printer of the log, and the parser that RFC 4180 describes.

    A record's time stamp, severity, thread id and object are taken as already printed. */
module CsvLog {
  import opened Common

  const MAX_MESSAGE_SIZE := 32000
  const HEADER :=
    "Date" + ";" + "Time" + ";" + "Severity" + ";" + "TID" + ";" + "This" + ";" + "Function" + ";" + "Message" + "\n"

  datatype Record = Record(date: string, time: string, severity: string, tid: string, object': string,
                           func: string, line: string, message: string)

  // ---- Printing ----

  function Truncated(message: string): string {
    if |message| > MAX_MESSAGE_SIZE then message[..MAX_MESSAGE_SIZE] + "..." else message
  }

  function FirstQuote(s: string): (i: nat)
    ensures i <= |s| && (i < |s| ==> s[i] == '"') && forall j :: 0 <= j < i ==> s[j] != '"'
  {
    if s == "" || s[0] == '"' then 0 else 1 + FirstQuote(s[1..])
  }

  /** Each token between quote characters, in quotes of its own: a stream read token by token is at its end only
      when no further quote follows, so a trailing quote gives one more, empty, token. */
  function Tokens(s: string): string
    decreases |s|
  {
    var i := FirstQuote(s);
    if i == |s| then "\"" + s + "\"" else "\"" + s[..i] + "\"" + Tokens(s[i + 1..])
  }

  function Front(r: Record): string {
    r.date + ";" + r.time + ";" + r.severity + ";" + r.tid + ";" + r.object' + ";" + r.func + "@" + r.line + ";"
  }

  function Format(r: Record): string {
    Front(r) + Tokens(Truncated(r.message)) + "\n"
  }

  /** `std::getline` up to a quote character: the token, what is left, and whether the end was reached. */
  method GetLine(split: string) returns (token: string, left: string, eof: bool)
    ensures var i := FirstQuote(split);
            token == split[..i] && eof == (i == |split|) && left == if eof then "" else split[i + 1..]
  {
    var i := FirstQuote(split);
    token, eof := split[..i], i == |split|;
    left := if eof then "" else split[i + 1..];
  }

  /** The loop over the message's tokens. */
  method QuoteTokens(message: string) returns (ss: string)
    ensures ss == Tokens(message)
  {
    ss := "";
    var split, eof, token := message, false, "";
    while !eof
      invariant ss + (if eof then "" else Tokens(split)) == Tokens(message)
      invariant eof ==> split == ""
      decreases !eof, |split|
    {
      TokensNext(ss, split);
      token, split, eof := GetLine(split);
      ss := ss + ("\"" + token + "\"");
    }
    assert ss + "" == ss;
  }

  method FormatRecord(r: Record) returns (ss: string)
    ensures ss == Format(r)
    ensures |r.message| <= 32000 ==> ss == Front(r) + Tokens(r.message) + "\n"
    ensures |r.message| > 32000 ==> ss == Front(r) + Tokens(r.message[..32000] + "...") + "\n"
  {
    ss := r.date + ";" + r.time + ";" + r.severity + ";" + r.tid + ";" + r.object' + ";";
    ss := ss + r.func + "@" + r.line + ";";
    var message := r.message;
    if |message| > MAX_MESSAGE_SIZE {
      message := message[..MAX_MESSAGE_SIZE];
      message := message + "...";
    }
    var quoted := QuoteTokens(message);
    ss := ss + quoted;
    ss := ss + "\n";
  }

  function Token(s: string): string {
    "\"" + s[..FirstQuote(s)] + "\""
  }

  function AfterToken(s: string): string {
    if FirstQuote(s) == |s| then "" else Tokens(s[FirstQuote(s) + 1..])
  }

  lemma TokensUnfold(s: string)
    ensures Tokens(s) == Token(s) + AfterToken(s)
  {
    if FirstQuote(s) == |s| {
      assert s[..|s|] == s;
      assert Token(s) + "" == Token(s);
    }
  }

  lemma TokensNext(done: string, s: string)
    ensures done + Tokens(s) == done + Token(s) + AfterToken(s)
  {
    TokensUnfold(s);
    Cat(done, Token(s), AfterToken(s));
  }

  // ---- Parsing, by the rules of section 2 of RFC 4180 ----

  /** At the start of a field; inside an unquoted one; inside a quoted one; after a quote that ends it, or that is
      the first of a doubled one. */
  datatype Place = Start | Bare | Quoted | Closed

  datatype Parser = Parser(place: Place, field: string, row: seq<string>, rows: seq<seq<string>>) | Failed

  const BEGIN := Parser(Start, "", [], [])

  /** Fields are separated by `;` and rows end in a newline. */
  function Feed(p: Parser, c: char): Parser {
    if p.Failed? then Failed
    else if p.place.Quoted? then
      if c == '"' then p.(place := Closed) else p.(field := p.field + [c])
    else if c == ';' then Parser(Start, "", p.row + [p.field], p.rows)
    else if c == '\n' then Parser(Start, "", [], p.rows + [p.row + [p.field]])
    else if c == '"' then
      match p.place
      case Start => p.(place := Quoted)
      case Closed => p.(place := Quoted, field := p.field + [c])
      case _ => Failed
    else if p.place.Closed? then Failed
    else p.(place := Bare, field := p.field + [c])
  }

  function FeedAll(p: Parser, s: string): Parser
    decreases |s|
  {
    if s == "" then p else FeedAll(Feed(p, s[0]), s[1..])
  }

  /** A last row without its newline is a row too; an open quote is an error. */
  function Finish(p: Parser): Option<seq<seq<string>>> {
    if p.Failed? || p.place.Quoted? then None
    else if p.place.Start? && p.row == [] then Some(p.rows)
    else Some(p.rows + [p.row + [p.field]])
  }

  function Parse(s: string): Option<seq<seq<string>>> {
    Finish(FeedAll(BEGIN, s))
  }

  // ---- The round trip ----

  predicate Plain(s: string) {
    forall i :: 0 <= i < |s| ==> s[i] != ';' && s[i] != '"' && s[i] != '\n'
  }

  /** Everything but the message and the function name is free of delimiters. */
  predicate Sane(r: Record) {
    Plain(r.date) && Plain(r.time) && Plain(r.severity) && Plain(r.tid) && Plain(r.object') && Plain(r.line)
  }

  function Place6(r: Record): string {
    r.func + "@" + r.line
  }

  function Row(r: Record): seq<string> {
    [r.date, r.time, r.severity, r.tid, r.object', Place6(r), Truncated(r.message)]
  }

  lemma {:induction false} FeedAppend(p: Parser, a: string, b: string)
    ensures FeedAll(p, a + b) == FeedAll(FeedAll(p, a), b)
    decreases |a|
  {
    if a == "" {
      assert a + b == b;
    } else {
      FeedAppend(Feed(p, a[0]), a[1..], b);
      assert (a + b)[1..] == a[1..] + b;
    }
  }

  lemma {:induction false} FeedPlain(p: Parser, s: string)
    requires Plain(s) && p.Parser? && (p.place.Start? || p.place.Bare?)
    ensures FeedAll(p, s) == if s == "" then p else p.(place := Bare, field := p.field + s)
    decreases |s|
  {
    if s != "" {
      FeedPlain(Feed(p, s[0]), s[1..]);
      assert p.field + [s[0]] + s[1..] == p.field + s;
    }
  }

  lemma FeedOne(p: Parser, c: char)
    ensures FeedAll(p, [c]) == Feed(p, c)
  {
  }

  lemma FeedField(row: seq<string>, rows: seq<seq<string>>, s: string)
    requires Plain(s)
    ensures FeedAll(Parser(Start, "", row, rows), s + ";") == Parser(Start, "", row + [s], rows)
  {
    var p := Parser(Start, "", row, rows);
    FeedAppend(p, s, ";");
    FeedPlain(p, s);
    FeedOne(FeedAll(p, s), ';');
    assert "" + s == s;
  }

  lemma {:induction false} FeedInside(p: Parser, s: string)
    requires p.Parser? && p.place.Quoted? && FirstQuote(s) == |s|
    ensures FeedAll(p, s) == p.(field := p.field + s)
    decreases |s|
  {
    if s != "" {
      FeedInside(Feed(p, s[0]), s[1..]);
      assert p.field + [s[0]] + s[1..] == p.field + s;
    } else {
      assert p.field + s == p.field;
    }
  }

  /** A quote before this place opens a field, or doubles the quote just read. */
  predicate TakesQuote(p: Parser) {
    p.Parser? && (p.place.Start? || p.place.Closed?)
  }

  function Doubled(p: Parser): string
    requires TakesQuote(p)
  {
    if p.place.Closed? then p.field + "\"" else p.field
  }

  lemma {:induction false} FeedToken(p: Parser, token: string)
    requires TakesQuote(p) && FirstQuote(token) == |token|
    ensures FeedAll(p, "\"" + token + "\"") == p.(place := Closed, field := Doubled(p) + token)
  {
    FeedOne(p, '"');
    var q := FeedAll(p, "\"");
    FeedAppend(p, "\"", token);
    FeedInside(q, token);
    FeedAppend(p, "\"" + token, "\"");
    FeedOne(FeedAll(p, "\"" + token), '"');
  }

  lemma {:induction false} NoQuoteBefore(s: string, i: nat)
    requires i <= FirstQuote(s)
    ensures FirstQuote(s[..i]) == i
  {
  }

  /** Printing token by token doubles every quote and puts the whole in quotes, so it reads back as one field. */
  lemma {:induction false} FeedTokens(p: Parser, s: string)
    requires TakesQuote(p)
    ensures FeedAll(p, Tokens(s)) == p.(place := Closed, field := Doubled(p) + s)
    decreases |s|
  {
    var i := FirstQuote(s);
    NoQuoteBefore(s, i);
    FeedToken(p, s[..i]);
    if i == |s| {
      assert s[..i] == s;
    } else {
      var p' := p.(place := Closed, field := Doubled(p) + s[..i]);
      FeedAppend(p, "\"" + s[..i] + "\"", Tokens(s[i + 1..]));
      FeedTokens(p', s[i + 1..]);
      assert Doubled(p) + s[..i] + "\"" + s[i + 1..] == Doubled(p) + s by {
        assert s == s[..i] + "\"" + s[i + 1..];
      }
    }
  }

  function Fields(fs: seq<string>): string {
    if fs == [] then "" else fs[0] + ";" + Fields(fs[1..])
  }

  lemma {:induction false} FeedFields(row: seq<string>, rows: seq<seq<string>>, fs: seq<string>)
    requires forall i :: 0 <= i < |fs| ==> Plain(fs[i])
    ensures FeedAll(Parser(Start, "", row, rows), Fields(fs)) == Parser(Start, "", row + fs, rows)
    decreases |fs|
  {
    if fs == [] {
      assert row + fs == row;
    } else {
      FeedField(row, rows, fs[0]);
      FeedAppend(Parser(Start, "", row, rows), fs[0] + ";", Fields(fs[1..]));
      FeedFields(row + [fs[0]], rows, fs[1..]);
      assert row + [fs[0]] + fs[1..] == row + fs;
    }
  }

  lemma {:induction false} FieldsSnoc(fs: seq<string>, x: string)
    ensures Fields(fs + [x]) == Fields(fs) + x + ";"
    decreases |fs|
  {
    if fs == [] {
      assert fs + [x] == [x] && [x][1..] == [];
      assert Fields([x]) == x + ";" + "";
    } else {
      FieldsSnoc(fs[1..], x);
      assert (fs + [x])[1..] == fs[1..] + [x];
      Cat(fs[0] + ";", Fields(fs[1..]), x);
      Cat(fs[0] + ";", Fields(fs[1..]) + x, ";");
    }
  }

  lemma SixFields(a: string, b: string, c: string, d: string, e: string, f: string)
    ensures Fields([a, b, c, d, e, f]) == a + ";" + b + ";" + c + ";" + d + ";" + e + ";" + f + ";"
  {
    FieldsSnoc([], a);
    FieldsSnoc([a], b);
    FieldsSnoc([a, b], c);
    FieldsSnoc([a, b, c], d);
    FieldsSnoc([a, b, c, d], e);
    FieldsSnoc([a, b, c, d, e], f);
    assert [] + [a] == [a] && "" + a == a;
    assert [a] + [b] == [a, b] && [a, b] + [c] == [a, b, c] && [a, b, c] + [d] == [a, b, c, d];
    assert [a, b, c, d] + [e] == [a, b, c, d, e] && [a, b, c, d, e] + [f] == [a, b, c, d, e, f];
  }

  function Leading(r: Record): seq<string> {
    [r.date, r.time, r.severity, r.tid, r.object', Place6(r)]
  }

  lemma FormatParts(r: Record)
    ensures Format(r) == Fields(Leading(r)) + (Tokens(Truncated(r.message)) + "\n")
  {
    SixFields(r.date, r.time, r.severity, r.tid, r.object', Place6(r));
    assert Front(r) == Fields(Leading(r));
  }

  lemma FeedRecord(r: Record, rows: seq<seq<string>>)
    requires Sane(r) && Plain(r.func)
    ensures FeedAll(Parser(Start, "", [], rows), Format(r)) == Parser(Start, "", [], rows + [Row(r)])
  {
    hide Tokens, Truncated, Format;
    var p, p6 := Parser(Start, "", [], rows), Parser(Start, "", Leading(r), rows);
    var m, back := Truncated(r.message), Tokens(Truncated(r.message));
    FormatParts(r);
    FeedFields([], rows, Leading(r));
    assert [] + Leading(r) == Leading(r);
    FeedAppend(p, Fields(Leading(r)), back + "\n");
    FeedAppend(p6, back, "\n");
    FeedTokens(p6, m);
    FeedOne(FeedAll(p6, back), '\n');
    assert "" + m == m;
    assert Leading(r) + [m] == Row(r);
  }

  function FormatAll(records: seq<Record>): string {
    if records == [] then "" else Format(records[0]) + FormatAll(records[1..])
  }

  function RowsOf(records: seq<Record>): seq<seq<string>> {
    seq(|records|, i requires 0 <= i < |records| => Row(records[i]))
  }

  lemma RowsOfMore(records: seq<Record>, rows: seq<seq<string>>)
    requires records != []
    ensures rows + [Row(records[0])] + RowsOf(records[1..]) == rows + RowsOf(records)
  {
  }

  /** The parser between two rows. */
  function Between(rows: seq<seq<string>>): Parser {
    Parser(Start, "", [], rows)
  }

  lemma {:induction false} FeedRecords(records: seq<Record>, rows: seq<seq<string>>)
    requires forall r :: r in records ==> Sane(r) && Plain(r.func)
    ensures FeedAll(Between(rows), FormatAll(records)) == Between(rows + RowsOf(records))
    decreases |records|
  {
    if records == [] {
      assert rows + RowsOf(records) == rows;
    } else {
      assert records[0] in records;
      FeedAppend(Between(rows), Format(records[0]), FormatAll(records[1..]));
      FeedRecord(records[0], rows);
      FeedRecords(records[1..], rows + [Row(records[0])]);
      RowsOfMore(records, rows);
    }
  }

  /** What the UTF-8 converter puts before the header of a file: the three bytes of a byte-order mark. */
  const BOM := "\U{EF}\U{BB}\U{BF}"

  function SixTitles(mark: string): seq<string> {
    [mark + "Date", "Time", "Severity", "TID", "This", "Function"]
  }

  function Titles(mark: string): seq<string> {
    SixTitles(mark) + ["Message"]
  }

  lemma FeedLastBare(row: seq<string>, s: string)
    requires Plain(s)
    ensures FeedAll(Parser(Start, "", row, []), s + "\n") == Parser(Start, "", [], [row + [s]])
  {
    var p := Parser(Start, "", row, []);
    FeedAppend(p, s, "\n");
    FeedPlain(p, s);
    FeedOne(FeedAll(p, s), '\n');
    assert "" + s == s;
  }

  lemma MarkedField(mark: string, first: string, rest: seq<string>)
    ensures Fields([mark + first] + rest) == mark + Fields([first] + rest)
  {
    assert ([mark + first] + rest)[1..] == rest && ([first] + rest)[1..] == rest;
    assert mark + first + ";" + Fields(rest) == mark + (first + ";" + Fields(rest));
  }

  lemma HeaderParts(mark: string)
    ensures mark + HEADER == Fields(SixTitles(mark)) + ("Message" + "\n")
  {
    hide Fields;
    SixFields("Date", "Time", "Severity", "TID", "This", "Function");
    Cat(Fields(SixTitles("")), "Message", "\n");
    var rest := SixTitles("")[1..];
    assert "" + "Date" == "Date" && SixTitles("") == ["Date"] + rest && SixTitles(mark) == [mark + "Date"] + rest;
    MarkedField(mark, "Date", rest);
    Cat(mark, Fields(SixTitles("")), "Message" + "\n");
  }

  lemma {:induction false} FeedTitles(h: string, six: seq<string>, last: string)
    requires h == Fields(six) + (last + "\n") && Plain(last) && forall i :: 0 <= i < |six| ==> Plain(six[i])
    ensures FeedAll(BEGIN, h) == Between([six + [last]])
  {
    FeedFields([], [], six);
    assert [] + six == six;
    FeedAppend(BEGIN, Fields(six), last + "\n");
    FeedLastBare(six, last);
  }

  lemma FeedHeader(mark: string)
    requires Plain(mark)
    ensures FeedAll(BEGIN, mark + HEADER) == Between([Titles(mark)])
  {
    HeaderParts(mark);
    FeedTitles(mark + HEADER, SixTitles(mark), "Message");
  }

  /** `m` is the message, cut after 32000 characters and marked if it was longer. */
  predicate IsMessage(m: string, message: string) {
    if |message| <= 32000 then m == message
    else |m| == 32003 && m[..32000] == message[..32000] && m[32000..] == "..."
  }

  /** Row `row` holds the record, its place and function together in the sixth field. */
  predicate IsRow(row: seq<string>, r: Record) {
    && |row| == 7 && IsMessage(row[6], r.message)
    && row[..6] == [r.date, r.time, r.severity, r.tid, r.object', r.func + "@" + r.line]
  }

  lemma RowHolds(r: Record)
    ensures IsRow(Row(r), r)
  {
  }

  /** A whole log, header and all, parses back to its seven titles and one seven-field row for each record, whose last
      field is the message, truncated if it was too long. A mark before the header becomes part of the first title. */
  lemma LogParsesBack(mark: string, records: seq<Record>)
    requires Plain(mark) && forall r :: r in records ==> Sane(r) && Plain(r.func)
    ensures Parse(mark + HEADER + FormatAll(records)) == Some([Titles(mark)] + RowsOf(records))
    ensures Titles(mark) == [mark + "Date", "Time", "Severity", "TID", "This", "Function", "Message"]
    ensures |RowsOf(records)| == |records| && forall i :: 0 <= i < |records| ==> IsRow(RowsOf(records)[i], records[i])
  {
    FeedAppend(BEGIN, mark + HEADER, FormatAll(records));
    FeedHeader(mark);
    FeedRecords(records, [Titles(mark)]);
    forall i | 0 <= i < |records| ensures IsRow(RowsOf(records)[i], records[i]) { RowHolds(records[i]); }
  }

  /** So a log file as the UTF-8 converter writes it has seven titles, the first of which is not "Date" but the three
      bytes of a byte-order mark and "Date", and a row for each record. */
  lemma FileParsesBack(records: seq<Record>)
    requires forall r :: r in records ==> Sane(r) && Plain(r.func)
    ensures Parse(BOM + HEADER + FormatAll(records)) == Some([Titles(BOM)] + RowsOf(records))
    ensures |Titles(BOM)| == 7 && Titles(BOM)[0] == "\U{EF}\U{BB}\U{BF}" + "Date" != "Date"
    ensures |RowsOf(records)| == |records| && forall i :: 0 <= i < |records| ==> IsRow(RowsOf(records)[i], records[i])
  {
    LogParsesBack(BOM, records);
  }

  // ---- Quoting ----

  /** Every quote character doubled. */
  function Escaped(s: string): string {
    if s == "" then "" else (if s[0] == '"' then "\"\"" else [s[0]]) + Escaped(s[1..])
  }

  /** The printed message after its opening quote. */
  function Opened(s: string): string {
    s[..FirstQuote(s)] + ("\"" + AfterToken(s))
  }

  lemma TokensOpened(s: string)
    ensures Tokens(s) == "\"" + Opened(s)
  {
    TokensUnfold(s);
    Cat("\"", s[..FirstQuote(s)], "\"");
    Cat("\"", s[..FirstQuote(s)] + "\"", AfterToken(s));
    Cat(s[..FirstQuote(s)], "\"", AfterToken(s));
  }

  lemma OpenedSkips(c: char, s: string)
    requires c != '"'
    ensures Opened([c] + s) == [c] + Opened(s)
  {
    hide Tokens;
    var i, s' := FirstQuote(s), [c] + s;
    assert s'[1..] == s && FirstQuote(s') == i + 1;
    assert s'[..i + 1] == [c] + s[..i] && (i < |s| ==> s'[i + 2..] == s[i + 1..]);
    Cat([c], s[..i], "\"" + AfterToken(s));
  }

  /** Printing token by token is quoting as section 2 of RFC 4180 has it: the whole message in quotes, and every quote
      in it doubled. */
  lemma {:induction false} TokensQuote(s: string)
    ensures Tokens(s) == "\"" + Escaped(s) + "\""
    decreases |s|
  {
    TokensOpened(s);
    if s != "" {
      TokensQuote(s[1..]);
      assert s == [s[0]] + s[1..];
      if s[0] == '"' {
        assert s[..0] == "" && AfterToken(s) == Tokens(s[1..]);
      } else {
        TokensOpened(s[1..]);
        OpenedSkips(s[0], s[1..]);
        assert Opened(s[1..]) == Tokens(s[1..])[1..] == Escaped(s[1..]) + "\"";
      }
    }
  }
}
