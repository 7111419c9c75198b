/** The admin page's CSV export: the text of the downloaded file and its name.
    The cells are wrapped in double quotes and nothing else: a `"`, a comma or
    a line break inside a cell is written as it is. */
module CsvExport {
  import opened Store
  import opened Strings

  /** The byte-order mark written before the content. */
  const Bom: string := "\U{FEFF}"

  const Headers: seq<string> := ["Дата", "ФИО", "Telegram", "Email", "Комментарий"]

  /** The header line as it appears in the file. */
  const HeaderText: string := "Дата,ФИО,Telegram,Email,Комментарий"

  datatype ExportOutcome =
    | NothingToExport                          // the "no applications" notice, no file
    | Download(fileName: string, content: string)

  /** The five cells of one record's row. `localize` stands for
      `new Date(timestamp).toLocaleString('ru-RU')`; an empty message is shown
      as `-`. */
  function Cells(app: Application, localize: string -> string): (cells: seq<string>)
    ensures |cells| == 5
    ensures cells[1] == app.fullName && cells[2] == app.telegram && cells[3] == app.email
    ensures cells[4] != "" && (app.message != "" ==> cells[4] == app.message)
  {
    [localize(app.timestamp), app.fullName, app.telegram, app.email,
     if app.message == "" then "-" else app.message]
  }

  /** A cell between two double quotes, with nothing inside it escaped. */
  function Quote(cell: string): (q: string)
    ensures |q| == |cell| + 2
    ensures q[0] == '"' && q[|q| - 1] == '"'
    ensures q[1..|q| - 1] == cell
  {
    "\"" + cell + "\""
  }

  function QuoteAll(cells: seq<string>): seq<string>
  {
    seq(|cells|, i requires 0 <= i < |cells| => Quote(cells[i]))
  }

  function RowLine(app: Application, localize: string -> string): string
  {
    Join(QuoteAll(Cells(app, localize)), ",")
  }

  function RowLines(apps: seq<Application>, localize: string -> string): seq<string>
  {
    seq(|apps|, i requires 0 <= i < |apps| => RowLine(apps[i], localize))
  }

  /** The header line and one line per record, joined with line feeds: the
      header line followed, record by record, by a line feed and its row. */
  function CsvContent(apps: seq<Application>, localize: string -> string): (content: string)
    ensures content == HeaderText + Lines(apps, localize)
  {
    assert Join([Join(Headers, ",")] + RowLines(apps, localize), "\n") == HeaderText + Lines(apps, localize) by {
      HeaderLine();
      JoinRowLines(Join(Headers, ","), apps, localize);
    }
    Join([Join(Headers, ",")] + RowLines(apps, localize), "\n")
  }

  /** `заявки_` + the date part of `isoNow` (up to its first `T`) + `.csv`;
      `isoNow` stands for `new Date().toISOString()`. */
  function FileName(isoNow: string): (name: string)
    ensures |name| >= 11
    ensures name[..7] == "заявки_" && name[|name| - 4..] == ".csv"
    ensures var date := name[7..|name| - 4];
            date <= isoNow && 'T' !in date && (|date| < |isoNow| ==> isoNow[|date|] == 'T')
  {
    "заявки_" + Before(isoNow, 'T') + ".csv"
  }

  /** The export click: refused with a notice on an empty list, otherwise a
      download of the byte-order mark followed by the CSV content. */
  function Export(apps: seq<Application>, localize: string -> string, isoNow: string): (out: ExportOutcome)
    ensures out.NothingToExport? <==> apps == []
    ensures out.Download? ==> out.fileName == FileName(isoNow)
    ensures out.Download? ==> out.content == Bom + HeaderText + Lines(apps, localize)
  {
    if |apps| == 0 then NothingToExport
    else Download(FileName(isoNow), Bom + CsvContent(apps, localize))
  }

  // ---------------------------------------------------------------------
  // A reference description of the file, line by line.

  /** What follows the header: a line feed and the row line of each record,
      in store order. */
  function Lines(apps: seq<Application>, localize: string -> string): string
  {
    if apps == [] then "" else "\n" + RowLine(apps[0], localize) + Lines(apps[1..], localize)
  }

  /** The header line is written unquoted. */
  lemma HeaderLine()
    ensures Join(Headers, ",") == HeaderText
  {
  }

  lemma NoLineFeedOutsideRows()
    ensures Count('\n', HeaderText) == 0 && Count('\n', Bom) == 0
  {
    assert forall i | 0 <= i < |HeaderText| :: HeaderText[i] != '\n';
  }

  /** A row is exactly five quoted cells separated by commas, in the order
      date, name, Telegram, email, comment, with no escaping of any cell. */
  lemma RowLineExact(app: Application, localize: string -> string)
    ensures RowLine(app, localize) ==
            Quote(localize(app.timestamp)) + "," + Quote(app.fullName) + "," + Quote(app.telegram)
            + "," + Quote(app.email) + "," + Quote(if app.message == "" then "-" else app.message)
  {
    var m := if app.message == "" then "-" else app.message;
    var q := QuoteAll(Cells(app, localize));
    assert q == [Quote(localize(app.timestamp)), Quote(app.fullName), Quote(app.telegram), Quote(app.email), Quote(m)];
    JoinFive(q[0], q[1], q[2], q[3], q[4], ",");
    assert q == [q[0], q[1], q[2], q[3], q[4]];
  }

  lemma JoinFive(a: string, b: string, c: string, d: string, e: string, sep: string)
    ensures Join([a, b, c, d, e], sep) == a + sep + b + sep + c + sep + d + sep + e
  {
    var s := [a, b, c, d, e];
    assert s[1..] == [b, c, d, e] && s[1..][1..] == [c, d, e];
    assert s[1..][1..][1..] == [d, e] && s[1..][1..][1..][1..] == [e];
    var de := d + sep + e;
    assert Join([d, e], sep) == de;
    var cde := c + sep + de;
    assert Join([c, d, e], sep) == cde;
    var bcde := b + sep + cde;
    assert Join([b, c, d, e], sep) == bcde;
    assert Join(s, sep) == a + sep + bcde;
    assert c + sep + d + sep + e == cde;
    assert b + sep + c + sep + d + sep + e == bcde;
  }

  lemma {:induction false} JoinRowLines(h: string, apps: seq<Application>, localize: string -> string)
    ensures Join([h] + RowLines(apps, localize), "\n") == h + Lines(apps, localize)
    decreases apps
  {
    if apps != [] {
      var rows, first := RowLines(apps, localize), RowLine(apps[0], localize);
      var rest := Lines(apps[1..], localize);
      assert Join([h] + rows, "\n") == h + "\n" + Join(rows, "\n") by {
        assert ([h] + rows)[1..] == rows;
      }
      assert Join(rows, "\n") == first + rest by {
        assert rows == [first] + RowLines(apps[1..], localize);
        JoinRowLines(first, apps[1..], localize);
      }
      assert h + "\n" + (first + rest) == h + ("\n" + first + rest);
    }
  }

  /** Rows appear in store order: the lines of a concatenation are the lines
      of its halves, one after the other. */
  lemma {:induction false} LinesAppend(xs: seq<Application>, ys: seq<Application>, localize: string -> string)
    ensures Lines(xs + ys, localize) == Lines(xs, localize) + Lines(ys, localize)
  {
    if xs == [] {
      assert xs + ys == ys;
    } else {
      assert (xs + ys)[1..] == xs[1..] + ys;
      LinesAppend(xs[1..], ys, localize);
    }
  }

  /** No trailing line feed: a non-empty export ends with the closing quote
      of the last record's comment cell. */
  lemma {:induction false} LinesEndWithQuote(apps: seq<Application>, localize: string -> string)
    requires apps != []
    ensures |Lines(apps, localize)| > 0 && Lines(apps, localize)[|Lines(apps, localize)| - 1] == '"'
  {
    var last := RowLine(apps[0], localize);
    RowLineExact(apps[0], localize);
    if |apps| > 1 {
      LinesEndWithQuote(apps[1..], localize);
    } else {
      assert Lines(apps, localize) == "\n" + last;
    }
  }

  lemma ExportHasNoTrailingNewline(apps: seq<Application>, localize: string -> string, isoNow: string)
    requires apps != []
    ensures var c := Export(apps, localize, isoNow).content; |c| > 0 && c[|c| - 1] == '"'
  {
    LinesEndWithQuote(apps, localize);
  }

  // ---------------------------------------------------------------------
  // What the naive quoting means for a reader of the file.

  /** Every character of a cell reaches the row line: a comma costs the row
      four more than its cells hold, a double quote ten more, any other
      character nothing. */
  lemma RowLineCount(c: char, app: Application, localize: string -> string)
    ensures Count(c, RowLine(app, localize)) ==
            CountAll(c, Cells(app, localize)) + (if c == '"' then 10 else if c == ',' then 4 else 0)
  {
    var cells := Cells(app, localize);
    var q := QuoteAll(cells);
    assert Count(c, RowLine(app, localize)) == CountAll(c, q) + 4 * Count(c, ",") by {
      CountJoin(c, q, ",");
    }
    assert CountAll(c, q) == CountAll(c, cells) + 5 * (if c == '"' then 2 else 0) by {
      QuoteAllCount(c, cells);
    }
  }

  lemma {:induction false} QuoteAllCount(c: char, cells: seq<string>)
    ensures CountAll(c, QuoteAll(cells)) == CountAll(c, cells) + |cells| * (if c == '"' then 2 else 0)
  {
    if cells != [] {
      var q := QuoteAll(cells);
      assert q[1..] == QuoteAll(cells[1..]);
      QuoteAllCount(c, cells[1..]);
      CountAppend(c, "\"", cells[0]);
      CountAppend(c, "\"" + cells[0], "\"");
    }
  }

  /** Line feeds inside the cells of the records, summed over the records. */
  function CellLineFeeds(apps: seq<Application>, localize: string -> string): nat
  {
    if apps == [] then 0 else CountAll('\n', Cells(apps[0], localize)) + CellLineFeeds(apps[1..], localize)
  }

  lemma {:induction false} LinesLineFeeds(apps: seq<Application>, localize: string -> string)
    ensures Count('\n', Lines(apps, localize)) == |apps| + CellLineFeeds(apps, localize)
  {
    if apps != [] {
      LinesLineFeeds(apps[1..], localize);
      RowLineCount('\n', apps[0], localize);
      CountAppend('\n', "\n", RowLine(apps[0], localize));
      CountAppend('\n', "\n" + RowLine(apps[0], localize), Lines(apps[1..], localize));
    }
  }

  /** The file holds one line feed per record plus every line feed typed into
      a cell: only when no cell holds one is it the header plus one line per
      record. */
  lemma ExportLineFeeds(apps: seq<Application>, localize: string -> string, isoNow: string)
    requires apps != []
    ensures Count('\n', Export(apps, localize, isoNow).content) == |apps| + CellLineFeeds(apps, localize)
  {
    var lines := Lines(apps, localize);
    assert Export(apps, localize, isoNow).content == Bom + (HeaderText + lines);
    LinesLineFeeds(apps, localize);
    NoLineFeedOutsideRows();
    CountAppend('\n', HeaderText, lines);
    CountAppend('\n', Bom, HeaderText + lines);
  }

  /** Without escaping, different records can give the same row line: when
      a name ends in `x","y`, the boundary between the name and Telegram
      cells can no longer be told from one written inside the name. */
  lemma QuotingIsAmbiguous(app: Application, x: string, y: string, z: string, localize: string -> string)
    ensures var a := app.(fullName := x + "\",\"" + y, telegram := z);
            var b := app.(fullName := x, telegram := y + "\",\"" + z);
            a != b && RowLine(a, localize) == RowLine(b, localize)
  {
    var a := app.(fullName := x + "\",\"" + y, telegram := z);
    var b := app.(fullName := x, telegram := y + "\",\"" + z);
    assert |a.fullName| != |b.fullName|;
    var qa, qb := QuoteAll(Cells(a, localize)), QuoteAll(Cells(b, localize));
    assert qa == [qa[0], qa[1], qa[2], qa[3], qa[4]] && qb == [qa[0], qb[1], qb[2], qa[3], qa[4]];
    SwallowedBoundary(x, y, z);
    JoinFiveMiddle(qa[0], qa[1], qa[2], qb[1], qb[2], qa[3], qa[4], ",");
  }

  lemma SwallowedBoundary(x: string, y: string, z: string)
    ensures Quote(x + "\",\"" + y) + "," + Quote(z) == Quote(x) + "," + Quote(y + "\",\"" + z)
  {
    var q, k := "\"", ",";
    var m := q + k + q;
    assert "\",\"" == m;
    var left := q + (x + m + y) + q + k + (q + z + q);
    var right := q + x + q + k + (q + (y + m + z) + q);
    var flat := q + x + m + y + m + z + q;
    assert left == flat;
    assert right == flat;
  }

  lemma JoinFiveMiddle(p0: string, p1: string, p2: string, q1: string, q2: string, p3: string, p4: string, sep: string)
    requires p1 + sep + p2 == q1 + sep + q2
    ensures Join([p0, p1, p2, p3, p4], sep) == Join([p0, q1, q2, p3, p4], sep)
  {
    JoinFive(p0, p1, p2, p3, p4, sep);
    JoinFive(p0, q1, q2, p3, p4, sep);
    var tail := sep + p3 + sep + p4;
    assert p0 + sep + p1 + sep + p2 + sep + p3 + sep + p4 == p0 + sep + (p1 + sep + p2) + tail;
    assert p0 + sep + q1 + sep + q2 + sep + p3 + sep + p4 == p0 + sep + (q1 + sep + q2) + tail;
  }

  /** The file name keeps the calendar date of an ISO-8601 time stamp. */
  lemma FileNameFromIso(date: string, time: string)
    requires 'T' !in date
    ensures FileName(date + "T" + time) == "заявки_" + date + ".csv"
  {
    BeforeUnique(date, 'T', time);
  }
}
