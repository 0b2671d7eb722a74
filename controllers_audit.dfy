/**
 * `AuditLogController`: the admin endpoints over the audit trail — the
 * paged query, the compliance report, the CSV/JSON export and the
 * per-category statistics.
 *
 * CSV fields are escaped as section 2 of RFC 4180 describes (rules 6 and
 * 7). A reader for that format is defined here so that the export can be
 * shown to read back as the values it wrote. Lines end in "\n", the line
 * terminator of `AppendLine` on Linux. Dates are written by the oracle
 * `formatTime`.
 */
module AuditLogControllers {
  import opened Common
  import opened Listing
  import opened Text
  import opened AuditLogServices
  import Trading

  // ------------------------------------------------------------ paging

  /** `GetLogs`: a page below 1 becomes 1. */
  function ClampLogPage(page: int): (r: int)
    ensures r >= 1
    ensures page >= 1 ==> r == page
    ensures page < 1 ==> r == 1
  {
    if page < 1 then 1 else page
  }

  /** `GetLogs`: a page size outside [1, 200] becomes 50. */
  function ClampLogPageSize(pageSize: int): (r: int)
    ensures 1 <= r <= 200
    ensures 1 <= pageSize <= 200 ==> r == pageSize
    ensures !(1 <= pageSize <= 200) ==> r == 50
  {
    if pageSize < 1 || pageSize > 200 then 50 else pageSize
  }

  /** `GetLogs`: the query with the page and page size clamped. */
  function GetLogs(logs: seq<AuditLog>, page: int, pageSize: int, userId: Option<string>,
                   category: Option<AuditCategory>, severity: Option<AuditSeverity>,
                   startDate: Option<int>, endDate: Option<int>, searchTerm: Option<string>,
                   entityType: Option<string>, fails: bool): AuditQueryResult
  {
    QueryLogs(logs, LogsRequest(page, pageSize, userId, category, severity, startDate, endDate, searchTerm, entityType), fails)
  }

  function LogsRequest(page: int, pageSize: int, userId: Option<string>,
                       category: Option<AuditCategory>, severity: Option<AuditSeverity>,
                       startDate: Option<int>, endDate: Option<int>, searchTerm: Option<string>,
                       entityType: Option<string>): AuditQueryRequest
  {
    AuditQueryRequest(ClampLogPage(page), ClampLogPageSize(pageSize), userId, category, severity,
                      startDate, endDate, searchTerm, entityType)
  }

  /**
   * Whatever page and size the caller asks for, the answer is a page of at
   * most 200 matching rows, and the total counts every matching row.
   */
  lemma GetLogsBounded(logs: seq<AuditLog>, page: int, pageSize: int, userId: Option<string>,
                       category: Option<AuditCategory>, severity: Option<AuditSeverity>,
                       startDate: Option<int>, endDate: Option<int>, searchTerm: Option<string>,
                       entityType: Option<string>)
    ensures var req := LogsRequest(page, pageSize, userId, category, severity, startDate, endDate, searchTerm, entityType);
      var r := GetLogs(logs, page, pageSize, userId, category, severity, startDate, endDate, searchTerm, entityType, false);
      r.page >= 1 && 1 <= r.pageSize <= 200 && |r.items| <= r.pageSize &&
      r.totalCount == CountWhere(logs, MatchesOf(req))
  {
    var req := LogsRequest(page, pageSize, userId, category, severity, startDate, endDate, searchTerm, entityType);
    QueryLogsCount(logs, req);
    QueryLogsItems(logs, req);
  }

  // ------------------------------------------------------------ compliance

  /** The longest period a compliance report may cover, in days. */
  const MaxReportDays: int := 366

  datatype ComplianceResponse = Unauthorized | BadRequest(message: string) | Report(report: ComplianceReport)

  /** `userId ?? claim`: an explicit (even empty) user id wins over the caller's own id. */
  function TargetUser(userId: Option<string>, claim: Option<string>): Option<string>
  {
    if userId.Some? then userId else claim
  }

  /**
   * The refusal of a compliance request, if any: no target user, an end
   * before the start, or a period longer than 366 days (`TotalDays`, in
   * fractional days).
   */
  function RejectCompliance(target: Option<string>, start: int, end: int): (r: Option<ComplianceResponse>)
    ensures r.None? <==> target.Some? && target.value != "" && start <= end && end - start <= MaxReportDays * MinutesPerDay
    ensures (target.None? || target.value == "") ==> r == Some(Unauthorized)
    ensures r.Some? ==> !r.value.Report?
  {
    if target.None? || target.value == "" then Some(Unauthorized)
    else if end < start then Some(BadRequest("Bitiş tarihi başlangıçtan önce olamaz."))
    else if (end - start) as real / MinutesPerDay as real > MaxReportDays as real then
      Some(BadRequest("Maksimum 1 yıllık rapor üretilebilir."))
    else None
  }

  /**
   * `GetComplianceReport`: a report for the target user over `[start, end]`
   * when the request passes the checks, the refusal otherwise.
   */
  method GetComplianceReport(logs: seq<AuditLog>, userId: Option<string>, claim: Option<string>, start: int, end: int,
                             walletBalance: Option<real>, bots: seq<Trading.Bot>, env: Env)
      returns (resp: ComplianceResponse)
    ensures resp.Report? <==> RejectCompliance(TargetUser(userId, claim), start, end).None?
    ensures !resp.Report? ==> Some(resp) == RejectCompliance(TargetUser(userId, claim), start, end)
    ensures resp.Report? ==> resp.report.userId == TargetUser(userId, claim).value &&
                             resp.report.startDate == start && resp.report.endDate == end &&
                             0 <= end - start <= MaxReportDays * MinutesPerDay
  {
    var target := TargetUser(userId, claim);
    var rejection := RejectCompliance(target, start, end);
    if rejection.Some? {
      return rejection.value;
    }
    var report := GenerateComplianceReport(logs, target.value, start, end, walletBalance, bots, env);
    resp := Report(report);
  }

  // ------------------------------------------------------------ CSV fields

  /** A field is quoted when it holds a comma, a double quote or a line feed. */
  predicate NeedsQuoting(v: string)
  {
    ',' in v || '"' in v || '\n' in v
  }

  /** Every double quote written twice. */
  function DoubleQuotes(v: string): (r: string)
    ensures |r| >= |v|
  {
    if |v| == 0 then ""
    else (if v[0] == '"' then "\"\"" else [v[0]]) + DoubleQuotes(v[1..])
  }

  /** Doubling the quotes is `Replace("\"", "\"\"")`. */
  lemma {:induction false} DoubleQuotesIsReplace(v: string)
    ensures DoubleQuotes(v) == ReplaceAll(v, "\"", "\"\"")
    decreases |v|
  {
    if |v| > 0 {
      DoubleQuotesIsReplace(v[1..]);
      assert StartsWith(v, "\"") <==> v[0] == '"';
      assert v[|"\""|..] == v[1..];
    }
  }

  /**
   * `Escape`: a value with a comma, a double quote or a line feed is
   * enclosed in double quotes with its inner quotes doubled (section 2 of
   * RFC 4180, rules 6 and 7); any other value, a lone carriage return
   * included, is written as it is.
   */
  function Escape(v: string): (r: string)
    ensures !NeedsQuoting(v) ==> r == v
    ensures NeedsQuoting(v) ==> |r| >= |v| + 2 && r[0] == '"' && r[|r| - 1] == '"'
  {
    if NeedsQuoting(v) then "\"" + DoubleQuotes(v) + "\"" else v
  }

  /** The text of an unquoted field: up to the next comma or line feed. */
  function ReadPlain(s: string): (r: (string, string))
    ensures |r.1| <= |s|
  {
    if |s| == 0 || s[0] == ',' || s[0] == '\n' then ("", s)
    else
      var rest := ReadPlain(s[1..]);
      ([s[0]] + rest.0, rest.1)
  }

  /**
   * The text of a quoted field after its opening quote: a doubled quote
   * stands for one quote, and a single quote closes the field.
   */
  function ReadQuoted(s: string): (r: (string, string))
    ensures |r.1| <= |s|
  {
    if |s| == 0 then ("", "")
    else if s[0] == '"' then
      if |s| > 1 && s[1] == '"' then
        var rest := ReadQuoted(s[2..]);
        ("\"" + rest.0, rest.1)
      else ("", s[1..])
    else
      var rest := ReadQuoted(s[1..]);
      ([s[0]] + rest.0, rest.1)
  }

  /** Reads one field of a record: its value and the text after it. */
  function ReadField(s: string): (r: (string, string))
    ensures |r.1| <= |s|
  {
    if |s| > 0 && s[0] == '"' then ReadQuoted(s[1..]) else ReadPlain(s)
  }

  /** What may follow a field: nothing, the next field's comma, or the end of the line. */
  predicate Delimited(t: string)
  {
    |t| == 0 || t[0] == ',' || t[0] == '\n'
  }

  lemma {:induction false} ReadPlainBack(v: string, t: string)
    requires ',' !in v && '\n' !in v && Delimited(t)
    ensures ReadPlain(v + t) == (v, t)
    decreases |v|
  {
    if |v| > 0 {
      assert v[0] in v;
      assert (v + t)[0] == v[0];
      assert (v + t)[1..] == v[1..] + t;
      ReadPlainBack(v[1..], t);
      assert [v[0]] + v[1..] == v;
    } else {
      assert v + t == t;
    }
  }

  lemma {:induction false} ReadQuotedBack(v: string, t: string)
    requires |t| == 0 || t[0] != '"'
    ensures ReadQuoted(DoubleQuotes(v) + ("\"" + t)) == (v, t)
    decreases |v|
  {
    if |v| == 0 {
      assert DoubleQuotes(v) + ("\"" + t) == "\"" + t;
      ReadQuotedClose(t);
    } else {
      ReadQuotedBack(v[1..], t);
      ReadQuotedStep(v, "\"" + t);
      assert [v[0]] + v[1..] == v;
    }
  }

  /** One more character in front of the value: a quote is read back from two, anything else from itself. */
  lemma ReadQuotedStep(v: string, u: string)
    requires |v| > 0
    ensures ReadQuoted(DoubleQuotes(v) + u) ==
            ([v[0]] + ReadQuoted(DoubleQuotes(v[1..]) + u).0, ReadQuoted(DoubleQuotes(v[1..]) + u).1)
  {
    var tail := DoubleQuotes(v[1..]) + u;
    if v[0] == '"' {
      DoubledFront(v, u);
      ReadQuotedDoubled(tail);
    } else {
      PlainFront(v, u);
      ReadQuotedOther(v[0], tail);
    }
  }

  lemma DoubledFront(v: string, u: string)
    requires |v| > 0 && v[0] == '"'
    ensures DoubleQuotes(v) + u == "\"\"" + (DoubleQuotes(v[1..]) + u)
  {
    var d := DoubleQuotes(v[1..]);
    assert DoubleQuotes(v) == "\"\"" + d;
    Associative("\"\"", d, u);
  }

  lemma PlainFront(v: string, u: string)
    requires |v| > 0 && v[0] != '"'
    ensures DoubleQuotes(v) + u == [v[0]] + (DoubleQuotes(v[1..]) + u)
  {
    var d := DoubleQuotes(v[1..]);
    assert DoubleQuotes(v) == [v[0]] + d;
    Associative([v[0]], d, u);
  }

  lemma Associative(a: string, b: string, c: string)
    ensures (a + b) + c == a + (b + c)
  {
  }

  lemma ReadQuotedClose(t: string)
    requires |t| == 0 || t[0] != '"'
    ensures ReadQuoted("\"" + t) == ("", t)
  {
    assert ("\"" + t)[1..] == t;
  }

  lemma ReadQuotedDoubled(tail: string)
    ensures ReadQuoted("\"\"" + tail) == ("\"" + ReadQuoted(tail).0, ReadQuoted(tail).1)
  {
    assert ("\"\"" + tail)[2..] == tail;
  }

  lemma ReadQuotedOther(c: char, tail: string)
    requires c != '"'
    ensures ReadQuoted([c] + tail) == ([c] + ReadQuoted(tail).0, ReadQuoted(tail).1)
  {
    assert ([c] + tail)[1..] == tail;
  }

  /** Reading an escaped value gives the value back, and leaves the delimiter after it. */
  lemma EscapeReadBack(v: string, t: string)
    requires Delimited(t)
    ensures ReadField(Escape(v) + t) == (v, t)
  {
    if NeedsQuoting(v) {
      var inner := DoubleQuotes(v) + ("\"" + t);
      QuotedFront(v, t);
      assert ("\"" + inner)[0] == '"';
      assert ("\"" + inner)[1..] == inner;
      ReadQuotedBack(v, t);
    } else {
      assert Escape(v) == v;
      ReadPlainBack(v, t);
      if |v| > 0 {
        assert v[0] in v;
        assert (v + t)[0] == v[0];
      } else {
        assert v + t == t;
      }
    }
  }

  lemma QuotedFront(v: string, t: string)
    requires NeedsQuoting(v)
    ensures Escape(v) + t == "\"" + (DoubleQuotes(v) + ("\"" + t))
  {
    var d := DoubleQuotes(v);
    assert Escape(v) == "\"" + d + "\"";
    assert ("\"" + d + "\"") + t == "\"" + (d + ("\"" + t));
  }

  // ------------------------------------------------------------ CSV records

  function Escaped(fields: seq<string>): (r: seq<string>)
    ensures |r| == |fields| && forall k :: 0 <= k < |fields| ==> r[k] == Escape(fields[k])
  {
    seq(|fields|, k requires 0 <= k < |fields| => Escape(fields[k]))
  }

  /** One CSV line: the escaped fields joined by commas. */
  function Record(fields: seq<string>): string
  {
    Join(",", Escaped(fields))
  }

  /** Reads the fields of one record, up to the end of its line. */
  function ReadRecord(s: string): (r: (seq<string>, string))
    ensures |r.1| <= |s|
    decreases |s|
  {
    var field := ReadField(s);
    if |field.1| > 0 && field.1[0] == ',' then
      var rest := ReadRecord(field.1[1..]);
      ([field.0] + rest.0, rest.1)
    else ([field.0], field.1)
  }

  /** Reading a record written by `Record` gives its fields back. */
  lemma {:induction false} RecordReadBack(fields: seq<string>, t: string)
    requires |fields| >= 1
    requires |t| == 0 || t[0] == '\n'
    ensures ReadRecord(Record(fields) + t) == (fields, t)
    decreases |fields|
  {
    if |fields| == 1 {
      assert Record(fields) == Escape(fields[0]) by {
        assert Escaped(fields) == [Escape(fields[0])];
      }
      EscapeReadBack(fields[0], t);
      ReadRecordLast(Escape(fields[0]) + t, fields[0], t);
      assert [fields[0]] == fields;
    } else {
      var tail := Record(fields[1..]) + t;
      assert Record(fields) + t == Escape(fields[0]) + ("," + tail) by {
        assert Escaped(fields[1..]) == Escaped(fields)[1..];
      }
      EscapeReadBack(fields[0], "," + tail);
      ReadRecordComma(Escape(fields[0]) + ("," + tail), fields[0], tail);
      RecordReadBack(fields[1..], t);
      assert [fields[0]] + fields[1..] == fields;
    }
  }

  lemma ReadRecordLast(s: string, f: string, t: string)
    requires ReadField(s) == (f, t)
    requires |t| == 0 || t[0] == '\n'
    ensures ReadRecord(s) == ([f], t)
  {
  }

  lemma ReadRecordComma(s: string, f: string, tail: string)
    requires ReadField(s) == (f, "," + tail)
    ensures ReadRecord(s) == ([f] + ReadRecord(tail).0, ReadRecord(tail).1)
  {
    assert ("," + tail)[1..] == tail;
  }

  /** Lines, each ended by a line feed. */
  function Lines(lines: seq<string>): string
  {
    if |lines| == 0 then "" else lines[0] + "\n" + Lines(lines[1..])
  }

  lemma {:induction false} LinesSnoc(lines: seq<string>, x: string)
    ensures Lines(lines + [x]) == Lines(lines) + x + "\n"
    decreases |lines|
  {
    if |lines| == 0 {
      assert lines + [x] == [x];
    } else {
      assert (lines + [x])[1..] == lines[1..] + [x];
      LinesSnoc(lines[1..], x);
    }
  }

  /** Reads a document: one record per line. */
  function ReadCsv(s: string): seq<seq<string>>
    decreases |s|
  {
    if |s| == 0 then []
    else
      var record := ReadRecord(s);
      if |record.1| == 0 then [record.0] else [record.0] + ReadCsv(record.1[1..])
  }

  /** Reading lines of records gives the records' fields back, line by line. */
  lemma {:induction false} DocumentReadBack(rows: seq<seq<string>>)
    requires forall k :: 0 <= k < |rows| ==> |rows[k]| >= 1
    ensures ReadCsv(Lines(Records(rows))) == rows
    decreases |rows|
  {
    if |rows| > 0 {
      var rest := Lines(Records(rows[1..]));
      LinesOfRecords(rows);
      RecordReadBack(rows[0], "\n" + rest);
      ReadCsvLine(Record(rows[0]) + ("\n" + rest), rows[0], rest);
      DocumentReadBack(rows[1..]);
      assert [rows[0]] + rows[1..] == rows;
    }
  }

  lemma ReadCsvLine(s: string, fields: seq<string>, rest: string)
    requires ReadRecord(s) == (fields, "\n" + rest)
    ensures ReadCsv(s) == [fields] + ReadCsv(rest)
  {
    assert ("\n" + rest)[1..] == rest;
  }

  /** The first line of a document and the rest. */
  lemma LinesOfRecords(rows: seq<seq<string>>)
    requires |rows| > 0
    ensures Lines(Records(rows)) == Record(rows[0]) + ("\n" + Lines(Records(rows[1..])))
  {
    assert Records(rows)[1..] == Records(rows[1..]);
  }

  function Records(rows: seq<seq<string>>): (r: seq<string>)
    ensures |r| == |rows| && forall k :: 0 <= k < |rows| ==> r[k] == Record(rows[k])
  {
    seq(|rows|, k requires 0 <= k < |rows| => Record(rows[k]))
  }

  // ------------------------------------------------------------ export

  /** The export's header columns. */
  const HeaderNames: seq<string> :=
    ["Tarih", "Kullanıcı", "Eylem", "Kategori", "Önem", "EntityType", "EntityId", "EskiDeger", "YeniDeger", "IP", "Metadata"]

  function OrEmptyField(s: Option<string>): string
  {
    if s.Some? then s.value else ""
  }

  /** The eleven values of a row, in header order; missing values are empty. */
  function RowFields(d: AuditLogDto, formatTime: int -> string): (r: seq<string>)
    ensures |r| == |HeaderNames|
  {
    [formatTime(d.timestamp), d.userEmail, d.action, d.category, d.severity,
     OrEmptyField(d.entityType), OrEmptyField(d.entityId), OrEmptyField(d.oldValue),
     OrEmptyField(d.newValue), OrEmptyField(d.ipAddress), OrEmptyField(d.metadata)]
  }

  function Rows(items: seq<AuditLogDto>, formatTime: int -> string): (r: seq<seq<string>>)
    ensures |r| == |items| && forall k :: 0 <= k < |items| ==> r[k] == RowFields(items[k], formatTime)
  {
    seq(|items|, k requires 0 <= k < |items| => RowFields(items[k], formatTime))
  }

  /** The exported document: the header line, then one line per item. */
  function CsvText(items: seq<AuditLogDto>, formatTime: int -> string): string
  {
    Lines(Records([HeaderNames] + Rows(items, formatTime)))
  }

  /**
   * The export reads back as the header followed by the items' values: every
   * row has the header's eleven columns, and no value is altered by the
   * escaping.
   */
  lemma CsvReadBack(items: seq<AuditLogDto>, formatTime: int -> string)
    ensures ReadCsv(CsvText(items, formatTime)) == [HeaderNames] + Rows(items, formatTime)
    ensures forall row :: row in ReadCsv(CsvText(items, formatTime)) ==> |row| == |HeaderNames|
  {
    var rows := [HeaderNames] + Rows(items, formatTime);
    forall k | 0 <= k < |rows| ensures |rows[k]| >= 1 {
      if k > 0 {
        assert rows[k] == RowFields(items[k - 1], formatTime);
      }
    }
    DocumentReadBack(rows);
  }

  datatype ExportResponse = JsonItems(items: seq<AuditLogDto>) | CsvFile(text: string, contentType: string)

  /** The export query: the first page of 10000 rows with the given filters. */
  function ExportRequest(category: Option<AuditCategory>, startDate: Option<int>, endDate: Option<int>): AuditQueryRequest
  {
    AuditQueryRequest(1, 10000, None, category, None, startDate, endDate, None, None)
  }

  /**
   * `ExportLogs`: the queried rows as JSON when the format is "json" in any
   * case, as a CSV document otherwise (the default format is "csv").
   */
  method ExportLogs(logs: seq<AuditLog>, category: Option<AuditCategory>, startDate: Option<int>, endDate: Option<int>,
                    format: Option<string>, formatTime: int -> string, fails: bool)
      returns (resp: ExportResponse)
    ensures var items := QueryLogs(logs, ExportRequest(category, startDate, endDate), fails).items;
      if format.Some? && EqualsIgnoreCase(format.value, "json") then resp == JsonItems(items)
      else resp == CsvFile(CsvText(items, formatTime), "text/csv")
  {
    var items := QueryLogs(logs, ExportRequest(category, startDate, endDate), fails).items;
    if format.Some? && EqualsIgnoreCase(format.value, "json") {
      return JsonItems(items);
    }
    var csv := Record(HeaderNames) + "\n";
    CsvTextEmpty(formatTime);
    assert items[..0] == [];
    for i := 0 to |items|
      invariant csv == CsvText(items[..i], formatTime)
    {
      CsvTextSnoc(items, i, formatTime);
      csv := csv + Record(RowFields(items[i], formatTime)) + "\n";
    }
    assert items[..|items|] == items;
    resp := CsvFile(csv, "text/csv");
  }

  /** With no items, the document is the header line alone. */
  lemma CsvTextEmpty(formatTime: int -> string)
    ensures CsvText([], formatTime) == Record(HeaderNames) + "\n"
  {
    SingleLine(HeaderNames);
    assert [HeaderNames] + Rows([], formatTime) == [HeaderNames];
  }

  lemma SingleLine(fields: seq<string>)
    ensures Lines(Records([fields])) == Record(fields) + "\n"
  {
    assert Records([fields])[1..] == [];
  }

  /** Writing one more item appends its line. */
  lemma CsvTextSnoc(items: seq<AuditLogDto>, i: int, formatTime: int -> string)
    requires 0 <= i < |items|
    ensures CsvText(items[..i + 1], formatTime) == CsvText(items[..i], formatTime) + Record(RowFields(items[i], formatTime)) + "\n"
  {
    var rows := [HeaderNames] + Rows(items[..i], formatTime);
    var line := Record(RowFields(items[i], formatTime));
    assert [HeaderNames] + Rows(items[..i + 1], formatTime) == rows + [RowFields(items[i], formatTime)];
    assert Records(rows + [RowFields(items[i], formatTime)]) == Records(rows) + [line];
    LinesSnoc(Records(rows), line);
  }

  // ------------------------------------------------------------ statistics

  /** The period the statistics cover when none is given: the last 30 days. */
  const DefaultStatsDays: int := 30

  datatype CategoryStat = CategoryStat(category: string, count: int)

  datatype StatsResponse = StatsResponse(startDate: int, endDate: int, categories: seq<CategoryStat>)

  /** The query for one category: page 1 of size 1, counting the rows of the category in the period. */
  function StatsRequest(c: AuditCategory, start: int, end: int): AuditQueryRequest
  {
    AuditQueryRequest(1, 1, None, Some(c), None, Some(start), Some(end), None, None)
  }

  /** A row of category `c` in the period `[start, end]`. */
  predicate CountedIn(c: AuditCategory, start: int, end: int, a: AuditLog)
  {
    a.category == c && start <= a.timestamp <= end
  }

  function CountedInOf(c: AuditCategory, start: int, end: int): AuditLog -> bool
  {
    (a: AuditLog) => CountedIn(c, start, end, a)
  }

  /** The count the query for one category reports. */
  lemma StatsCount(logs: seq<AuditLog>, c: AuditCategory, start: int, end: int)
    ensures QueryLogs(logs, StatsRequest(c, start, end), false).totalCount == CountWhere(logs, CountedInOf(c, start, end))
  {
    var req := StatsRequest(c, start, end);
    QueryLogsCount(logs, req);
    CountWhereSame(logs, MatchesOf(req), CountedInOf(c, start, end));
  }

  lemma {:induction false} CountWhereSame(logs: seq<AuditLog>, p: AuditLog -> bool, q: AuditLog -> bool)
    requires forall a :: p(a) == q(a)
    ensures CountWhere(logs, p) == CountWhere(logs, q)
    decreases |logs|
  {
    if |logs| > 0 {
      CountWhereSame(logs[1..], p, q);
    }
  }

  /**
   * `GetStats`: one entry per category, in declaration order, with the
   * number of its rows in the period (30 days back from `now` to `now` by
   * default).
   */
  method GetStats(logs: seq<AuditLog>, startDate: Option<int>, endDate: Option<int>, now: int, fails: bool)
      returns (resp: StatsResponse)
    ensures resp.startDate == (if startDate.Some? then startDate.value else now - DefaultStatsDays * MinutesPerDay)
    ensures resp.endDate == (if endDate.Some? then endDate.value else now)
    ensures |resp.categories| == |AllCategories|
    ensures forall k :: 0 <= k < |AllCategories| ==> resp.categories[k].category == CategoryName(AllCategories[k])
    ensures forall k :: 0 <= k < |AllCategories| ==>
              resp.categories[k].count == (if fails then 0 else CountWhere(logs, CountedInOf(AllCategories[k], resp.startDate, resp.endDate)))
  {
    var start := if startDate.Some? then startDate.value else now - DefaultStatsDays * MinutesPerDay;
    var end := if endDate.Some? then endDate.value else now;
    var stats: seq<CategoryStat> := [];
    for i := 0 to |AllCategories|
      invariant |stats| == i
      invariant forall k :: 0 <= k < i ==> stats[k] == CategoryEntry(logs, AllCategories[k], start, end, fails)
    {
      var entry := CountCategory(logs, AllCategories[i], start, end, fails);
      stats := stats + [entry];
    }
    resp := StatsResponse(start, end, stats);
  }

  /** The statistics entry of one category, as `GetStats` reports it. */
  function CategoryEntry(logs: seq<AuditLog>, c: AuditCategory, start: int, end: int, fails: bool): CategoryStat
  {
    CategoryStat(CategoryName(c), if fails then 0 else CountWhere(logs, CountedInOf(c, start, end)))
  }

  /** One category's entry: its name and the total count of its query. */
  method CountCategory(logs: seq<AuditLog>, c: AuditCategory, start: int, end: int, fails: bool)
      returns (entry: CategoryStat)
    ensures entry == CategoryEntry(logs, c, start, end, fails)
  {
    var result := QueryLogs(logs, StatsRequest(c, start, end), fails);
    if !fails {
      StatsCount(logs, c, start, end);
    }
    entry := CategoryStat(CategoryName(c), result.totalCount);
  }

  /** The counts of a list of categories, added up. */
  function CountsOver(cs: seq<AuditCategory>, logs: seq<AuditLog>, start: int, end: int): nat
  {
    if |cs| == 0 then 0 else CountWhere(logs, CountedInOf(cs[0], start, end)) + CountsOver(cs[1..], logs, start, end)
  }

  /** How often `c` is listed. */
  function Occurrences(cs: seq<AuditCategory>, c: AuditCategory): nat
  {
    if |cs| == 0 then 0 else (if cs[0] == c then 1 else 0) + Occurrences(cs[1..], c)
  }

  lemma {:induction false} CountsOverCons(cs: seq<AuditCategory>, logs: seq<AuditLog>, start: int, end: int)
    requires |logs| > 0
    ensures CountsOver(cs, logs, start, end) ==
            CountsOver(cs, logs[1..], start, end) +
            (if start <= logs[0].timestamp <= end then Occurrences(cs, logs[0].category) else 0)
    decreases |cs|
  {
    if |cs| > 0 {
      CountsOverCons(cs[1..], logs, start, end);
    }
  }

  /** A row in the period, of any category. */
  function InPeriodOf(start: int, end: int): AuditLog -> bool
  {
    (a: AuditLog) => start <= a.timestamp <= end
  }

  /** The per-category counts add up to the number of rows in the period: every row has exactly one category. */
  lemma {:induction false} CountsPartitionPeriod(logs: seq<AuditLog>, start: int, end: int)
    ensures CountsOver(AllCategories, logs, start, end) == CountWhere(logs, InPeriodOf(start, end))
    decreases |logs|
  {
    if |logs| > 0 {
      var inPeriod := start <= logs[0].timestamp <= end;
      CountsOverCons(AllCategories, logs, start, end);
      OccursOnce(logs[0].category);
      assert CountsOver(AllCategories, logs, start, end) ==
             CountsOver(AllCategories, logs[1..], start, end) + (if inPeriod then 1 else 0);
      CountsPartitionPeriod(logs[1..], start, end);
      assert InPeriodOf(start, end)(logs[0]) == inPeriod;
      assert CountWhere(logs, InPeriodOf(start, end)) ==
             (if inPeriod then 1 else 0) + CountWhere(logs[1..], InPeriodOf(start, end));
    } else {
      CountsOverNothing(AllCategories, logs, start, end);
    }
  }

  lemma {:induction false} CountsOverNothing(cs: seq<AuditCategory>, logs: seq<AuditLog>, start: int, end: int)
    requires |logs| == 0
    ensures CountsOver(cs, logs, start, end) == 0
    decreases |cs|
  {
    if |cs| > 0 {
      CountsOverNothing(cs[1..], logs, start, end);
    }
  }

  lemma {:induction false} NotOccurring(cs: seq<AuditCategory>, c: AuditCategory)
    requires c !in cs
    ensures Occurrences(cs, c) == 0
    decreases |cs|
  {
    if |cs| > 0 {
      NotOccurring(cs[1..], c);
    }
  }

  lemma {:induction false} OccursOnceIn(cs: seq<AuditCategory>, c: AuditCategory)
    requires c in cs
    requires forall i, j :: 0 <= i < j < |cs| ==> cs[i] != cs[j]
    ensures Occurrences(cs, c) == 1
    decreases |cs|
  {
    if cs[0] == c {
      assert forall j :: 0 <= j < |cs| - 1 ==> cs[1..][j] != cs[0];
      NotOccurring(cs[1..], c);
    } else {
      OccursOnceIn(cs[1..], c);
    }
  }

  /** Every category is listed exactly once. */
  lemma OccursOnce(c: AuditCategory)
    ensures Occurrences(AllCategories, c) == 1
  {
    AllCategoriesComplete(c);
    OccursOnceIn(AllCategories, c);
  }

  /** The statistics' counts add up to the number of rows in the period. */
  lemma StatsAddUp(logs: seq<AuditLog>, stats: seq<CategoryStat>, start: int, end: int)
    requires |stats| == |AllCategories|
    requires forall k :: 0 <= k < |AllCategories| ==> stats[k].count == CountWhere(logs, CountedInOf(AllCategories[k], start, end))
    ensures SumCounts(stats) == CountWhere(logs, InPeriodOf(start, end))
  {
    CountsPartitionPeriod(logs, start, end);
    SumCountsMatch(stats, AllCategories, logs, start, end);
  }

  function SumCounts(stats: seq<CategoryStat>): int
  {
    if |stats| == 0 then 0 else stats[0].count + SumCounts(stats[1..])
  }

  lemma {:induction false} SumCountsMatch(stats: seq<CategoryStat>, cs: seq<AuditCategory>, logs: seq<AuditLog>, start: int, end: int)
    requires |stats| == |cs|
    requires forall k :: 0 <= k < |cs| ==> stats[k].count == CountWhere(logs, CountedInOf(cs[k], start, end))
    ensures SumCounts(stats) == CountsOver(cs, logs, start, end)
    decreases |cs|
  {
    if |cs| > 0 {
      SumCountsMatch(stats[1..], cs[1..], logs, start, end);
    }
  }
}
