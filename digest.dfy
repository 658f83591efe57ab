/** `generate_html_table` of shared/tasks.py: the HTML table of one source in
    the digest e-mail, with clickable links and escaped text. */
module Digest {
  import opened Wrappers
  import opened Text
  import opened PyValue

  /** `allowed_cols`, the columns of the Simplify table. */
  const SimplifyColumns: seq<string> :=
    ["title", "company_name", "terms", "date_posted", "url", "locations", "sponsorship", "degrees"]

  /** Columns whose cells become a "Link" anchor. */
  const LinkColumns: seq<string> := ["url", "company_url", "Job Url"]

  function EmptyTable(title: string): string {
    "<h3>" + title + "</h3><p>No new jobs found.</p>"
  }

  /** The heading and the table opening, up to the header cells. */
  function Preamble(title: string): string {
    "\n    <h3 style=\"font-family: Arial; color: #333;\">" + title + "</h3>\n"
    + "    <table border=\"1\" cellpadding=\"8\" cellspacing=\"0\" style=\"border-collapse: collapse; font-family: Arial, sans-serif; width: 100%;\">\n"
    + "      <thead style=\"background-color: #f2f2f2;\">\n"
    + "        <tr>\n    "
  }

  /** The whole table around its header cells and its body rows. */
  function Frame(title: string, th: string, body: string): string {
    Preamble(title) + th + "</tr></thead><tbody>" + body + "</tbody></table><br>"
  }

  /** `{k: v for k, v in job.items() if k in cols}`. */
  function FilterColumns(job: Dict, cols: seq<string>): (r: Dict)
    ensures forall i :: 0 <= i < |r| ==> r[i].0 in cols
    decreases |job|
  {
    if job == [] then []
    else (if job[0].0 in cols then [job[0]] else []) + FilterColumns(job[1..], cols)
  }

  /** Keeping some columns does not change the value found under any of them. */
  lemma {:induction false} FilterColumnsLookup(job: Dict, cols: seq<string>, k: string)
    requires k in cols
    ensures Lookup(FilterColumns(job, cols), k) == Lookup(job, k)
    decreases |job|
  {
    if job != [] {
      var rest := FilterColumns(job[1..], cols);
      FilterColumnsLookup(job[1..], cols, k);
      if job[0].0 in cols {
        var kept := [job[0]] + rest;
        assert FilterColumns(job, cols) == kept;
        assert kept[0] == job[0] && kept[1..] == rest;
        if job[0].0 != k {
          assert Lookup(kept, k) == Lookup(rest, k);
        }
      } else {
        assert FilterColumns(job, cols) == [] + rest == rest;
        assert job[0].0 != k;
      }
    }
  }

  function Headers(jobs: seq<Dict>, linkedIn: bool): seq<string>
    requires jobs != []
  {
    if linkedIn then Keys(jobs[0]) else SimplifyColumns
  }

  /** `jobs_filtered`. */
  function Rows(jobs: seq<Dict>, linkedIn: bool): (rows: seq<Dict>)
    ensures |rows| == |jobs|
  {
    if linkedIn then jobs
    else seq(|jobs|, i requires 0 <= i < |jobs| => FilterColumns(jobs[i], SimplifyColumns))
  }

  /** The text of one cell, before it is wrapped in `<td>`. A list is joined, a
      number becomes its decimal form; link columns give an anchor when the
      value is truthy and nothing otherwise; other strings are escaped. */
  function Cell(header: string, raw: Value): Result<string, Exc> {
    var joined :- if raw.ListV? then (var s :- JoinValue(", ", raw); Ok(StrV(s))) else Ok(raw);
    var v := if joined.IntV? || joined.BoolV? then StrV(Format(joined)) else joined;
    if header in LinkColumns then
      Ok(if Truthy(v) then "<a href=\"" + Format(v) + "\">Link</a>" else "")
    else if v.StrV? then Ok(EscapeHtml(v.s))
    else Ok(Format(v))
  }

  /** `job.get(header, "")`, rendered. */
  function CellOf(row: Dict, header: string): Result<string, Exc> {
    Cell(header, Get(row, header, StrV("")))
  }

  // ---------------------------------------------------------------------------
  // Assembling tagged pieces

  predicate AllOk(parts: seq<Result<string, Exc>>) {
    forall i :: 0 <= i < |parts| ==> parts[i].Ok?
  }

  /** The pieces of a row (or of a table body) appended in order, each between
      `open` and `close`; the first piece that failed is the result. */
  function Wrap(open: string, close: string, parts: seq<Result<string, Exc>>): Result<string, Exc>
    decreases |parts|
  {
    if parts == [] then Ok("")
    else
      var done :- Wrap(open, close, parts[..|parts| - 1]);
      var p :- parts[|parts| - 1];
      Ok(done + (open + p + close))
  }

  /** Each piece between its tags, as a list. */
  function Tagged(open: string, close: string, parts: seq<Result<string, Exc>>): (r: seq<string>)
    requires AllOk(parts)
    ensures |r| == |parts|
  {
    seq(|parts|, i requires 0 <= i < |parts| => open + parts[i].value + close)
  }

  /** Wrapping succeeds exactly when every piece does, and then it is the
      concatenation of the tagged pieces. */
  lemma {:induction false} WrapIsConcat(open: string, close: string, parts: seq<Result<string, Exc>>)
    ensures Wrap(open, close, parts).Ok? <==> AllOk(parts)
    ensures AllOk(parts) ==> Wrap(open, close, parts) == Ok(Concat(Tagged(open, close, parts)))
    decreases |parts|
  {
    if parts != [] {
      var n := |parts|;
      var init := parts[..n - 1];
      WrapIsConcat(open, close, init);
      assert forall i :: 0 <= i < n - 1 ==> init[i] == parts[i];
      if AllOk(parts) {
        var ts := Tagged(open, close, parts);
        assert ts[..n - 1] == Tagged(open, close, init);
      } else if AllOk(init) {
        assert parts[n - 1].Err?;
      }
    }
  }

  lemma {:induction false} WrapPrefixError(open: string, close: string, parts: seq<Result<string, Exc>>, j: nat)
    requires j <= |parts| && Wrap(open, close, parts[..j]).Err?
    ensures Wrap(open, close, parts) == Wrap(open, close, parts[..j])
    decreases |parts|
  {
    if j < |parts| {
      var init := parts[..|parts| - 1];
      assert init[..j] == parts[..j];
      WrapPrefixError(open, close, init, j);
    } else {
      assert parts[..j] == parts;
    }
  }

  // ---------------------------------------------------------------------------
  // The table

  function ThList(headers: seq<string>): (r: seq<string>)
    ensures |r| == |headers|
  {
    seq(|headers|, j requires 0 <= j < |headers| => "<th>" + headers[j] + "</th>")
  }

  function CellResults(row: Dict, headers: seq<string>): (r: seq<Result<string, Exc>>)
    ensures |r| == |headers|
  {
    seq(|headers|, j requires 0 <= j < |headers| => CellOf(row, headers[j]))
  }

  /** The `<td>` cells of one row. */
  function TdCells(row: Dict, headers: seq<string>): Result<string, Exc> {
    Wrap("<td>", "</td>", CellResults(row, headers))
  }

  function RowResults(rows: seq<Dict>, headers: seq<string>): (r: seq<Result<string, Exc>>)
    ensures |r| == |rows|
  {
    seq(|rows|, i requires 0 <= i < |rows| => TdCells(rows[i], headers))
  }

  /** The `<tr>` rows of the table body. */
  function TrRows(rows: seq<Dict>, headers: seq<string>): Result<string, Exc> {
    Wrap("<tr>", "</tr>", RowResults(rows, headers))
  }

  /** `generate_html_table(title, jobs, is_linkedin)`. */
  function TableHtml(title: string, jobs: seq<Dict>, linkedIn: bool): Result<string, Exc> {
    if jobs == [] then Ok(EmptyTable(title))
    else
      var headers := Headers(jobs, linkedIn);
      match TrRows(Rows(jobs, linkedIn), headers)
      case Err(e) => Err(e)
      case Ok(body) => Ok(Frame(title, Concat(ThList(headers)), body))
  }

  /** The header loop of `generate_html_table`. */
  method HeaderCells(headers: seq<string>) returns (s: string)
    ensures s == Concat(ThList(headers))
  {
    s := "";
    var i := 0;
    while i < |headers|
      invariant 0 <= i <= |headers|
      invariant s == Concat(ThList(headers)[..i])
    {
      assert ThList(headers)[..i + 1] == ThList(headers)[..i] + ["<th>" + headers[i] + "</th>"];
      ConcatSnoc(ThList(headers)[..i], "<th>" + headers[i] + "</th>");
      s := s + ("<th>" + headers[i] + "</th>");
      i := i + 1;
    }
    assert ThList(headers)[..i] == ThList(headers);
  }

  lemma WrapSnoc(open: string, close: string, parts: seq<Result<string, Exc>>, j: nat, done: string, p: string)
    requires j < |parts| && Wrap(open, close, parts[..j]) == Ok(done) && parts[j] == Ok(p)
    ensures Wrap(open, close, parts[..j + 1]) == Ok(done + (open + p + close))
  {
    assert parts[..j + 1][..j] == parts[..j];
  }

  lemma WrapError(open: string, close: string, parts: seq<Result<string, Exc>>, j: nat, done: string)
    requires j < |parts| && Wrap(open, close, parts[..j]) == Ok(done) && parts[j].Err?
    ensures Wrap(open, close, parts) == Err(parts[j].error)
  {
    assert parts[..j + 1][..j] == parts[..j];
    WrapPrefixError(open, close, parts, j + 1);
  }

  /** The cell loop of `generate_html_table`, for one row. */
  method RowCells(row: Dict, headers: seq<string>) returns (r: Result<string, Exc>)
    ensures r == TdCells(row, headers)
  {
    ghost var results := CellResults(row, headers);
    var cells := "";
    var j := 0;
    while j < |headers|
      invariant 0 <= j <= |headers|
      invariant Wrap("<td>", "</td>", results[..j]) == Ok(cells)
    {
      var c := CellOf(row, headers[j]);
      if c.Err? {
        WrapError("<td>", "</td>", results, j, cells);
        return Err(c.error);
      }
      WrapSnoc("<td>", "</td>", results, j, cells, c.value);
      cells := cells + ("<td>" + c.value + "</td>");
      j := j + 1;
    }
    assert results[..j] == results;
    return Ok(cells);
  }

  lemma TableHtmlOfBody(title: string, jobs: seq<Dict>, linkedIn: bool, th: string, body: string)
    requires jobs != [] && th == Concat(ThList(Headers(jobs, linkedIn)))
    requires TrRows(Rows(jobs, linkedIn), Headers(jobs, linkedIn)) == Ok(body)
    ensures TableHtml(title, jobs, linkedIn) == Ok(Frame(title, th, body))
  {
  }

  /** `generate_html_table`: the header cells, then the rows, then the frame. */
  method GenerateHtmlTable(title: string, jobs: seq<Dict>, linkedIn: bool) returns (r: Result<string, Exc>)
    ensures r == TableHtml(title, jobs, linkedIn)
  {
    if jobs == [] {
      return Ok(EmptyTable(title));
    }
    var rows := Rows(jobs, linkedIn);
    var headers := Headers(jobs, linkedIn);
    var th := HeaderCells(headers);
    var body := TableRows(rows, headers);
    if body.Err? {
      return Err(body.error);
    }
    TableHtmlOfBody(title, jobs, linkedIn, th, body.value);
    return Ok(Frame(title, th, body.value));
  }

  /** The row loop of `generate_html_table`, appending one `<tr>` per job to
      the table body and stopping at the first cell that raises. */
  method TableRows(rows: seq<Dict>, headers: seq<string>) returns (r: Result<string, Exc>)
    ensures r == TrRows(rows, headers)
  {
    ghost var results := RowResults(rows, headers);
    var body := "";
    var k := 0;
    while k < |rows|
      invariant 0 <= k <= |rows|
      invariant Wrap("<tr>", "</tr>", results[..k]) == Ok(body)
    {
      var cells := RowCells(rows[k], headers);
      if cells.Err? {
        WrapError("<tr>", "</tr>", results, k, body);
        return Err(cells.error);
      }
      WrapSnoc("<tr>", "</tr>", results, k, body, cells.value);
      body := body + ("<tr>" + cells.value + "</tr>");
      k := k + 1;
    }
    assert results[..k] == results;
    return Ok(body);
  }

  // ---------------------------------------------------------------------------
  // The table as a grid: one header cell per column, one row per job, one
  // data cell per column in every row.

  predicate GridOk(rows: seq<Dict>, headers: seq<string>) {
    forall i :: 0 <= i < |rows| ==> AllOk(CellResults(rows[i], headers))
  }

  /** The table body as rows of cells. */
  function GridBody(rows: seq<Dict>, headers: seq<string>): string
    requires GridOk(rows, headers)
  {
    Concat(seq(|rows|, i requires 0 <= i < |rows| =>
      "<tr>" + Concat(Tagged("<td>", "</td>", CellResults(rows[i], headers))) + "</tr>"))
  }

  lemma GridOkIff(rows: seq<Dict>, headers: seq<string>)
    ensures TrRows(rows, headers).Ok? <==> GridOk(rows, headers)
    ensures GridOk(rows, headers) ==> TrRows(rows, headers) == Ok(GridBody(rows, headers))
  {
    var results := RowResults(rows, headers);
    forall i | 0 <= i < |rows|
      ensures results[i].Ok? <==> AllOk(CellResults(rows[i], headers))
      ensures results[i].Ok? ==> results[i].value == Concat(Tagged("<td>", "</td>", CellResults(rows[i], headers)))
    {
      WrapIsConcat("<td>", "</td>", CellResults(rows[i], headers));
    }
    WrapIsConcat("<tr>", "</tr>", results);
    if GridOk(rows, headers) {
      assert Tagged("<tr>", "</tr>", results)
          == seq(|rows|, i requires 0 <= i < |rows| =>
               "<tr>" + Concat(Tagged("<td>", "</td>", CellResults(rows[i], headers))) + "</tr>");
    }
  }

  lemma TableOkIffBodyOk(title: string, jobs: seq<Dict>, linkedIn: bool)
    requires jobs != []
    ensures TableHtml(title, jobs, linkedIn).Ok? <==> TrRows(Rows(jobs, linkedIn), Headers(jobs, linkedIn)).Ok?
  {
  }

  /** A non-empty table is built exactly when every cell of every row can be
      rendered. */
  lemma TableBuiltIffCellsRender(title: string, jobs: seq<Dict>, linkedIn: bool)
    requires jobs != []
    ensures TableHtml(title, jobs, linkedIn).Ok? <==> GridOk(Rows(jobs, linkedIn), Headers(jobs, linkedIn))
  {
    TableOkIffBodyOk(title, jobs, linkedIn);
    GridOkIff(Rows(jobs, linkedIn), Headers(jobs, linkedIn));
  }

  /** A non-empty table is its header cells, one per column, and one row per
      job holding one cell per column. */
  lemma TableLayout(title: string, jobs: seq<Dict>, linkedIn: bool)
    requires jobs != [] && GridOk(Rows(jobs, linkedIn), Headers(jobs, linkedIn))
    ensures TableHtml(title, jobs, linkedIn)
            == Ok(Frame(title, Concat(ThList(Headers(jobs, linkedIn))),
                       GridBody(Rows(jobs, linkedIn), Headers(jobs, linkedIn))))
  {
    GridOkIff(Rows(jobs, linkedIn), Headers(jobs, linkedIn));
    TableHtmlOfBody(title, jobs, linkedIn, Concat(ThList(Headers(jobs, linkedIn))),
                    GridBody(Rows(jobs, linkedIn), Headers(jobs, linkedIn)));
  }

  // ---------------------------------------------------------------------------
  // Cells

  /** A column the job does not have is an empty cell. */
  lemma MissingCellIsEmpty(row: Dict, header: string)
    requires header !in Keys(row)
    ensures CellOf(row, header) == Ok("")
  {
    assert EscapeHtml("") == "";
  }

  /** Text outside the link columns is escaped: it carries no tag, and
      unescaping gives the text back. */
  lemma TextCellIsEscaped(header: string, s: string)
    requires header !in LinkColumns
    ensures Cell(header, StrV(s)).Ok?
    ensures var e := Cell(header, StrV(s)).value;
      '<' !in e && '>' !in e && UnescapeHtml(e) == s
  {
    EscapeHtmlHasNoTags(s);
    EscapeHtmlRoundTrip(s);
  }

  /** A link column holding a non-empty URL is a "Link" anchor to it; an empty
      or missing one is an empty cell. */
  lemma LinkCell(header: string, url: string)
    requires header in LinkColumns
    ensures url != "" ==> Cell(header, StrV(url)) == Ok("<a href=\"" + url + "\">Link</a>")
    ensures url == "" ==> Cell(header, StrV(url)) == Ok("")
  {
  }

  /** A list cell is its strings joined with ", " (escaped outside the link
      columns); a list holding a non-string cannot be rendered. */
  lemma ListCell(header: string, items: seq<Value>)
    requires header !in LinkColumns
    ensures (forall i :: 0 <= i < |items| ==> items[i].StrV?) ==>
      Cell(header, ListV(items))
      == Ok(EscapeHtml(Join(seq(|items|, i requires 0 <= i < |items| && items[i].StrV? => items[i].s), ", ")))
    ensures (exists i :: 0 <= i < |items| && !items[i].StrV?) ==> Cell(header, ListV(items)).Err?
  {
    if forall i :: 0 <= i < |items| ==> items[i].StrV? {
      var strs := AsStrings(items, 0).value;
      assert strs == seq(|items|, i requires 0 <= i < |items| && items[i].StrV? => items[i].s);
    }
  }

  /** The Simplify table shows each job's own value in each of its columns. */
  lemma SimplifyCellsAreJobValues(jobs: seq<Dict>, i: nat, header: string)
    requires i < |jobs| && header in SimplifyColumns
    ensures CellOf(Rows(jobs, false)[i], header) == CellOf(jobs[i], header)
  {
    FilterColumnsLookup(jobs[i], SimplifyColumns, header);
  }
}
