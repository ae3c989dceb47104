/** Exactly which function names the row printer can print so that the row reads back. */
module CsvExact {
  import opened Common
  import opened CsvLog

  predicate Delimiter(c: char) {
    c == ';' || c == '"' || c == '\n'
  }

  lemma {:induction false} FailedStays(s: string)
    ensures FeedAll(Failed, s) == Failed
    decreases |s|
  {
    if s != "" { FailedStays(s[1..]); }
  }

  // ---- A field that has ended stays what it is ----

  /** The first row begins with these fields, whatever is read from here on. */
  predicate Committed(p: Parser, fields: seq<string>) {
    p.Failed? || (if p.rows == [] then fields <= p.row else fields <= p.rows[0])
  }

  lemma {:induction false} CommittedStays(p: Parser, fields: seq<string>, s: string)
    requires Committed(p, fields)
    ensures Committed(FeedAll(p, s), fields)
    decreases |s|
  {
    if s != "" { CommittedStays(Feed(p, s[0]), fields, s[1..]); }
  }

  lemma CommittedFinish(p: Parser, fields: seq<string>)
    requires Committed(p, fields) && fields != [] && Finish(p).Some?
    ensures Finish(p).value != [] && fields <= Finish(p).value[0]
  {
    if p.rows == [] {
      assert fields <= p.row + [p.field];
    }
  }

  /** A delimiter after the first character of the function name ends the field too early, or is an error. */
  lemma CutShort(row: seq<string>, f: string, i: nat, rest: string, m: string)
    requires |row| == 5 && i < |f| && Plain(f[..i]) && Delimiter(f[i]) && (i > 0 || f[i] != '"')
    ensures Finish(FeedAll(Parser(Start, "", row, []), f + rest)) != Some([row + [f, m]])
  {
    var p := Parser(Start, "", row, []);
    var after := f[i + 1..] + rest;
    assert f + rest == f[..i] + ([f[i]] + after);
    FeedAppend(p, f[..i], [f[i]] + after);
    FeedPlain(p, f[..i]);
    var cut := FeedAll(p, f[..i]);
    assert ([f[i]] + after)[1..] == after;
    assert "" + f[..i] == f[..i];
    if f[i] == '"' {
      FailedStays(after);
    } else {
      var fields := row + [f[..i]];
      CommittedStays(Feed(cut, f[i]), fields, after);
      var end := FeedAll(Feed(cut, f[i]), after);
      if Finish(end).Some? { CommittedFinish(end, fields); }
      assert |fields[5]| != |(row + [f, m])[5]|;
    }
  }

  // ---- A quoted field costs two characters more than its contents ----

  function Quotes(s: string): nat {
    if s == "" then 0 else Quotes(s[..|s| - 1]) + if s[|s| - 1] == '"' then 1 else 0
  }

  lemma QuotesSnoc(s: string, c: char)
    ensures Quotes(s + [c]) == Quotes(s) + if c == '"' then 1 else 0
  {
    assert (s + [c])[..|s + [c]| - 1] == s;
  }

  /** The least number of characters that prints these fields, each with its separator, counting two for every
      quote in them. */
  function Weight(fields: seq<string>): nat {
    if fields == [] then 0
    else Weight(fields[..|fields| - 1]) + |fields[|fields| - 1]| + Quotes(fields[|fields| - 1]) + 1
  }

  lemma WeightSnoc(fields: seq<string>, f: string)
    ensures Weight(fields + [f]) == Weight(fields) + |f| + Quotes(f) + 1
  {
    assert (fields + [f])[..|fields + [f]| - 1] == fields;
  }

  function RowsWeight(rows: seq<seq<string>>): nat {
    if rows == [] then 0 else RowsWeight(rows[..|rows| - 1]) + Weight(rows[|rows| - 1])
  }

  lemma RowsWeightSnoc(rows: seq<seq<string>>, row: seq<string>)
    ensures RowsWeight(rows + [row]) == RowsWeight(rows) + Weight(row)
  {
    assert (rows + [row])[..|rows + [row]| - 1] == rows;
  }

  function ReadWeight(p: Parser): nat
    requires p.Parser?
  {
    RowsWeight(p.rows) + Weight(p.row) + |p.field| + Quotes(p.field)
    + (if p.place.Quoted? then 1 else if p.place.Closed? then 2 else 0)
  }

  /** Still inside the sixth field of the first row, which began with a quote. */
  predicate InSixth(p: Parser) {
    p.Parser? && p.rows == [] && |p.row| == 5 && (p.place.Quoted? || p.place.Closed?)
  }

  predicate PastSixth(p: Parser) {
    p.Parser? && (p.rows != [] || |p.row| > 5)
  }

  /** `n` characters pay for what has been read, and for the two quotes of the sixth field once it has ended. */
  predicate Paid(p: Parser, n: nat) {
    || p.Failed?
    || (InSixth(p) && ReadWeight(p) <= n)
    || (PastSixth(p) && ReadWeight(p) + 2 <= n)
  }

  lemma FeedInsideWeight(p: Parser, c: char)
    requires p.Parser? && !(Feed(p, c).Parser? && Feed(p, c).place.Start?)
    requires p.place.Start? ==> p.field == ""
    ensures Feed(p, c).Parser? ==>
              ReadWeight(Feed(p, c)) <= ReadWeight(p) + 1 && Feed(p, c).row == p.row && Feed(p, c).rows == p.rows
  {
    QuotesSnoc(p.field, c);
  }

  /** Ending a field costs its separator; ending a quoted one costs its two quotes as well. */
  lemma FeedEndWeight(p: Parser, c: char)
    requires p.Parser? && Feed(p, c).Parser? && Feed(p, c).place.Start?
    ensures ReadWeight(Feed(p, c)) + (if p.place.Closed? then 1 else -1) == ReadWeight(p)
    ensures Feed(p, c).field == "" && (InSixth(p) ==> p.place.Closed?)
    ensures InSixth(p) || PastSixth(p) ==> PastSixth(Feed(p, c))
  {
    WeightSnoc(p.row, p.field);
    RowsWeightSnoc(p.rows, p.row + [p.field]);
  }

  lemma {:induction false} FeedPaid(p: Parser, c: char, n: nat)
    requires Paid(p, n) && (p.Parser? && p.place.Start? ==> p.field == "")
    ensures Paid(Feed(p, c), n + 1)
    ensures var p' := Feed(p, c); p'.Parser? && p'.place.Start? ==> p'.field == ""
  {
    if p.Parser? {
      if Feed(p, c).Parser? && Feed(p, c).place.Start? {
        FeedEndWeight(p, c);
      } else {
        FeedInsideWeight(p, c);
      }
    }
  }

  lemma {:induction false} FeedAllPaid(p: Parser, s: string, n: nat)
    requires Paid(p, n) && (p.Parser? && p.place.Start? ==> p.field == "")
    ensures Paid(FeedAll(p, s), n + |s|)
    decreases |s|
  {
    if s != "" {
      FeedPaid(p, s[0], n);
      FeedAllPaid(Feed(p, s[0]), s[1..], n + 1);
    }
  }

  lemma {:induction false} QuotesAppend(a: string, b: string)
    ensures Quotes(a + b) == Quotes(a) + Quotes(b)
    decreases |b|
  {
    if b == "" {
      assert a + b == a;
    } else {
      QuotesAppend(a, b[..|b| - 1]);
      assert a + b == a + b[..|b| - 1] + [b[|b| - 1]];
      QuotesSnoc(a + b[..|b| - 1], b[|b| - 1]);
    }
  }

  lemma {:induction false} TokensLength(s: string)
    ensures |Tokens(s)| == |s| + Quotes(s) + 2
    decreases |s|
  {
    var i := FirstQuote(s);
    NoQuotes(s[..i]);
    if i == |s| {
      assert s[..i] == s;
    } else {
      TokensLength(s[i + 1..]);
      QuotesSnoc(s[..i], '"');
      QuotesAppend(s[..i] + ['"'], s[i + 1..]);
      assert s == s[..i] + ['"'] + s[i + 1..];
    }
  }

  lemma {:induction false} NoQuotes(s: string)
    requires forall j :: 0 <= j < |s| ==> s[j] != '"'
    ensures Quotes(s) == 0
  {
    if s != "" { NoQuotes(s[..|s| - 1]); }
  }

  /** A function name that begins with a quote would have to be printed with its quotes doubled: too few characters
      are there for the row to come back. */
  lemma OpensQuoted(row: seq<string>, f: string, m: string)
    requires |row| == 5 && f != "" && f[0] == '"'
    ensures Finish(FeedAll(Parser(Start, "", row, []), f + (";" + Tokens(m) + "\n"))) != Some([row + [f, m]])
  {
    var p := Parser(Start, "", row, []);
    var body := f[1..] + (";" + Tokens(m));
    assert f + (";" + Tokens(m) + "\n") == [f[0]] + (body + "\n");
    FeedAppend(p, [f[0]], body + "\n");
    FeedOne(p, f[0]);
    var q := Feed(p, f[0]);
    FeedAppend(q, body, "\n");
    FeedOne(FeedAll(q, body), '\n');
    FeedAllPaid(q, body, Weight(row) + 1);
    FeedPaid2(FeedAll(q, body), Weight(row) + 1 + |body|, row, f, m);
    TokensLength(m);
    WeightSnoc(row, f);
    WeightSnoc(row + [f], m);
    assert row + [f] + [m] == row + [f, m];
    QuotesAppend([f[0]], f[1..]);
    assert f == [f[0]] + f[1..];
    QuotesSnoc("", '"');
    assert "" + ['"'] == [f[0]];
  }

  /** After the final newline only a row that has been paid for can be the result. */
  lemma FeedPaid2(p: Parser, n: nat, row: seq<string>, f: string, m: string)
    requires Paid(p, n) && |row| == 5
    ensures Finish(Feed(p, '\n')) == Some([row + [f, m]]) ==> Weight(row + [f, m]) + 2 <= n + 1
  {
    if p.Parser? && !p.place.Quoted? {
      WeightSnoc(p.row, p.field);
      RowsWeightSnoc(p.rows, p.row + [p.field]);
      if Finish(Feed(p, '\n')) == Some([row + [f, m]]) {
        assert p.rows + [p.row + [p.field]] == [row + [f, m]];
        assert p.rows == [];
        assert p.row + [p.field] == row + [f, m];
        assert RowsWeight([]) == 0;
      }
    }
  }

  lemma {:induction false} FirstDelimiter(s: string) returns (i: nat)
    requires !Plain(s)
    ensures i < |s| && Delimiter(s[i]) && Plain(s[..i])
    decreases |s|
  {
    if Plain(s[..|s| - 1]) {
      i := |s| - 1;
    } else {
      i := FirstDelimiter(s[..|s| - 1]);
      assert s[..|s| - 1][..i] == s[..i];
    }
  }

  lemma BadNameIsLost(lead: seq<string>, f: string, i: nat, m: string)
    requires |lead| == 5 && (forall k :: 0 <= k < |lead| ==> Plain(lead[k]))
    requires i < |f| && Delimiter(f[i]) && Plain(f[..i])
    ensures Parse(Fields(lead) + (f + (";" + Tokens(m) + "\n"))) != Some([lead + [f, m]])
  {
    FeedFields([], [], lead);
    assert [] + lead == lead;
    FeedAppend(BEGIN, Fields(lead), f + (";" + Tokens(m) + "\n"));
    if i == 0 && f[0] == '"' {
      OpensQuoted(lead, f, m);
    } else {
      CutShort(lead, f, i, ";" + Tokens(m) + "\n", m);
    }
  }

  /** A row reads back to its seven fields if and only if the function name has no `;`, no quote and no newline. */
  lemma RowParsesIff(r: Record)
    requires Sane(r)
    ensures Parse(Format(r)) == Some([Row(r)]) <==> Plain(r.func)
  {
    if Plain(r.func) {
      FeedRecord(r, []);
      assert [] + [Row(r)] == [Row(r)];
    } else {
      var f, m := Place6(r), Truncated(r.message);
      var lead := [r.date, r.time, r.severity, r.tid, r.object'];
      var i := FirstDelimiter(r.func);
      assert f[..i] == r.func[..i] && f[i] == r.func[i];
      BadNameIsLost(lead, f, i, m);
      FormatFromLead(r, lead);
      assert Row(r) == lead + [f, m];
    }
  }

  lemma FormatFromLead(r: Record, lead: seq<string>)
    requires lead == [r.date, r.time, r.severity, r.tid, r.object']
    ensures Format(r) == Fields(lead) + (Place6(r) + (";" + Tokens(Truncated(r.message)) + "\n"))
  {
    var back := Tokens(Truncated(r.message));
    FormatParts(r);
    assert Leading(r) == lead + [Place6(r)];
    FieldsSnoc(lead, Place6(r));
    Cat(Fields(lead), Place6(r), ";");
    Cat(Fields(lead), Place6(r) + ";", back + "\n");
    Cat(Place6(r), ";", back + "\n");
    Cat(";", back, "\n");
  }

  /** A function name with a separator in it, as a template argument list may have. */
  lemma SeparatorInNameIsLost()
    ensures var r := Record("2017/05/01", "12:00:00.000", "INFO", "7", "0x0", "f(';')", "12", "done");
            Parse(Format(r)) != Some([Row(r)])
  {
    var r := Record("2017/05/01", "12:00:00.000", "INFO", "7", "0x0", "f(';')", "12", "done");
    assert r.func[3] == ';';
    assert Sane(r);
    RowParsesIff(r);
  }
}
