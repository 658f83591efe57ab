/** The legacy e-mail of configs.py: `format_jobs_html_table` builds the HTML
    table of the recent Simplify listings by appending one row per job, and
    `sendEmailAlert` names their number in the subject. */
module Configs {
  import opened Wrappers
  import opened Text
  import opened PyValue
  import opened Mail
  import opened Sequences

  /** The whole body when there are no jobs. */
  const NoJobsHtml: string := "<p>No new internships in the last 30 minutes.</p>"

  /** The opening of the table: its fixed eight-column header. */
  const TableHead: string :=
    "\n    <table border=\"1\" cellpadding=\"8\" cellspacing=\"0\" style=\"border-collapse: collapse; font-family: Arial, sans-serif;\">"
    + "\n      <thead>"
    + "\n        <tr style=\"background-color: #f2f2f2;\">"
    + "\n          <th>Company Name</th>"
    + "\n          <th>Title</th>"
    + "\n          <th>URL</th>"
    + "\n          <th>Terms</th>"
    + "\n          <th>Date Posted</th>"
    + "\n          <th>Locations</th>"
    + "\n          <th>Sponsorships</th>"
    + "\n          <th>Degrees</th>"
    + "\n        </tr>"
    + "\n      </thead>"
    + "\n      <tbody>"
    + "\n    "

  const TableTail: string := "</tbody></table>"

  /** `datetime.fromtimestamp(ts).strftime("%m/%d/%Y")` in the machine's local
      time zone: the date text, or the exception the conversion raises. */
  type DateFormatter = int -> Result<string, Exc>

  /** The eight cell texts of one row, as the f-string inserts them. */
  datatype Cells = Cells(
    companyName: string,
    title: string,
    url: string,
    terms: string,
    datePosted: string,
    locations: string,
    sponsorship: string,
    degrees: string)

  /** `datetime.fromtimestamp(v)`: it takes an int (a bool is one) and refuses
      anything else. */
  function LocalDate(v: Value, localDate: DateFormatter): Result<string, Exc> {
    match v
    case IntV(i) => localDate(i)
    case BoolV(b) => localDate(if b then 1 else 0)
    case _ => Err(TypeError("'" + TypeName(v) + "' object cannot be interpreted as an integer"))
  }

  /** The values of lines 51-58 for one job, in the order they are computed;
      a job that is not a dict fails on its first `get`. */
  function JobCells(job: Value, localDate: DateFormatter): (r: Result<Cells, Exc>)
    ensures r.Ok? ==> job.DictV?
  {
    match AsDict(job)
    case Err(e) => Err(e)
    case Ok(d) =>
      match LocalDate(Get(d, "date_posted", IntV(0)), localDate)
      case Err(e) => Err(e)
      case Ok(date) =>
        match JoinValue(", ", Get(d, "locations", ListV([])))
        case Err(e) => Err(e)
        case Ok(locations) =>
          match JoinValue(", ", Get(d, "terms", ListV([])))
          case Err(e) => Err(e)
          case Ok(terms) =>
            match JoinValue(", ", Get(d, "degrees", ListV([])))
            case Err(e) => Err(e)
            case Ok(degrees) =>
              Ok(Cells(
                Format(Get(d, "company_name", StrV("N/A"))),
                Format(Get(d, "title", StrV("N/A"))),
                Format(Get(d, "url", StrV("#"))),
                terms, date, locations,
                Format(Get(d, "sponsorship", StrV("N/A"))),
                degrees))
  }

  /** The link cell's content: an anchor to `url`. */
  function Anchor(url: string): string {
    "<a href=\"" + url + "\">Link</a>"
  }

  /** The row appended at lines 60-71: the company and title cells, the link
      cell, then the five cells after it. */
  function RowHtml(c: Cells): string {
    RowStart(c) + Anchor(c.url) + RowEnd(c)
  }

  function RowStart(c: Cells): string {
    "\n        <tr>"
    + "\n            <td>" + c.companyName + "</td>"
    + "\n            <td>" + c.title + "</td>"
    + "\n            <td>"
  }

  function RowEnd(c: Cells): string {
    "</td>"
    + "\n            <td>" + c.terms + "</td>"
    + "\n            <td>" + c.datePosted + "</td>"
    + "\n            <td>" + c.locations + "</td>"
    + "\n            <td>" + c.sponsorship + "</td>"
    + "\n            <td>" + c.degrees + "</td>"
    + "\n        </tr>"
    + "\n        "
  }

  /** What one iteration of the loop appends for a job, or the exception it raises. */
  type RowBuilder = Value -> Result<string, Exc>

  /** The row builder of lines 51-71. */
  function RowOf(localDate: DateFormatter): RowBuilder {
    job =>
      match JobCells(job, localDate)
      case Err(e) => Err(e)
      case Ok(cells) => Ok(RowHtml(cells))
  }

  /** The rows of `jobs` one after the other; the first job whose row cannot
      be built stops the loop with its exception. */
  function Rows(jobs: seq<Value>, row: RowBuilder): Result<string, Exc>
    decreases |jobs|
  {
    if jobs == [] then Ok("")
    else
      match Rows(jobs[..|jobs| - 1], row)
      case Err(e) => Err(e)
      case Ok(done) =>
        match row(jobs[|jobs| - 1])
        case Err(e) => Err(e)
        case Ok(last) => Ok(done + last)
  }

  /** `format_jobs_html_table(jobs)`. */
  function JobsTable(jobs: seq<Value>, localDate: DateFormatter): (r: Result<string, Exc>)
    ensures jobs == [] ==> r == Ok(NoJobsHtml)
  {
    if jobs == [] then Ok(NoJobsHtml)
    else
      match Rows(jobs, RowOf(localDate))
      case Err(e) => Err(e)
      case Ok(rows) => Ok(TableHead + rows + TableTail)
  }

  /** Once the loop has failed on a prefix, it fails the same way on the whole list. */
  lemma {:induction false} RowsFailureSticks(jobs: seq<Value>, k: nat, row: RowBuilder)
    requires k <= |jobs| && Rows(jobs[..k], row).Err?
    ensures Rows(jobs, row) == Rows(jobs[..k], row)
    decreases |jobs| - k
  {
    if k < |jobs| {
      assert jobs[..k + 1][..k] == jobs[..k];
      RowsFailureSticks(jobs, k + 1, row);
    } else {
      assert jobs[..k] == jobs;
    }
  }

  /** One more iteration of the loop. */
  lemma RowsSnoc(jobs: seq<Value>, i: nat, row: RowBuilder)
    requires i < |jobs| && Rows(jobs[..i], row).Ok?
    ensures Rows(jobs[..i + 1], row) ==
      match row(jobs[i])
      case Err(e) => Err(e)
      case Ok(last) => Ok(Rows(jobs[..i], row).value + last)
  {
    assert jobs[..i + 1][..i] == jobs[..i];
  }

  /** `format_jobs_html_table` as written: the header, then `html +=` of one
      row per job, then the closing tags. */
  method FormatJobsHtmlTable(jobs: seq<Value>, localDate: DateFormatter) returns (r: Result<string, Exc>)
    ensures r == JobsTable(jobs, localDate)
  {
    if jobs == [] {
      return Ok(NoJobsHtml);
    }
    ghost var row := RowOf(localDate);
    var html := TableHead;
    var i := 0;
    while i < |jobs|
      invariant 0 <= i <= |jobs|
      invariant Rows(jobs[..i], row).Ok?
      invariant html == TableHead + Rows(jobs[..i], row).value
    {
      var cells := JobCells(jobs[i], localDate);
      RowsSnoc(jobs, i, row);
      if cells.Err? {
        RowsFailureSticks(jobs, i + 1, row);
        return Err(cells.error);
      }
      AppendAssoc(TableHead, Rows(jobs[..i], row).value, RowHtml(cells.value));
      html := html + RowHtml(cells.value);
      i := i + 1;
    }
    assert jobs[..i] == jobs;
    html := html + TableTail;
    return Ok(html);
  }

  // ---------------------------------------------------------------------------
  // The shape of the table

  /** Every job's row can be built. */
  predicate AllRowsOk(jobs: seq<Value>, row: RowBuilder) {
    forall i :: 0 <= i < |jobs| ==> row(jobs[i]).Ok?
  }

  /** The row of each job, in input order. */
  function RowList(jobs: seq<Value>, row: RowBuilder): (rows: seq<string>)
    requires AllRowsOk(jobs, row)
    ensures |rows| == |jobs|
  {
    seq(|jobs|, i requires 0 <= i < |jobs| => row(jobs[i]).value)
  }

  lemma {:induction false} RowsAreRowList(jobs: seq<Value>, row: RowBuilder)
    ensures Rows(jobs, row).Ok? <==> AllRowsOk(jobs, row)
    ensures AllRowsOk(jobs, row) ==> Rows(jobs, row) == Ok(Concat(RowList(jobs, row)))
    decreases |jobs|
  {
    if jobs != [] {
      var init := jobs[..|jobs| - 1];
      RowsAreRowList(init, row);
      assert forall i :: 0 <= i < |init| ==> init[i] == jobs[i];
      if AllRowsOk(jobs, row) {
        assert AllRowsOk(init, row);
        var rows := RowList(jobs, row);
        var front := RowList(init, row);
        assert forall k | 0 <= k < |init| :: front[k] == rows[k];
        assert front == rows[..|jobs| - 1];
      } else if AllRowsOk(init, row) {
        var i :| 0 <= i < |jobs| && row(jobs[i]).Err?;
        assert i == |init|;
      }
    }
  }

  /** A non-empty list gives the fixed header, then one row per job in input
      order, each the row of that job's cells, then the closing tags; it fails
      exactly when some job's cells cannot be computed. */
  lemma TableShape(jobs: seq<Value>, localDate: DateFormatter)
    requires jobs != []
    ensures JobsTable(jobs, localDate).Ok? <==> forall i :: 0 <= i < |jobs| ==> JobCells(jobs[i], localDate).Ok?
    ensures JobsTable(jobs, localDate).Ok? ==>
      var rows := RowList(jobs, RowOf(localDate));
      && JobsTable(jobs, localDate).value == TableHead + Concat(rows) + TableTail
      && forall i :: 0 <= i < |jobs| ==> rows[i] == RowHtml(JobCells(jobs[i], localDate).value)
  {
    var row := RowOf(localDate);
    RowsAreRowList(jobs, row);
    assert forall i :: 0 <= i < |jobs| ==> (row(jobs[i]).Ok? <==> JobCells(jobs[i], localDate).Ok?);
  }

  /** Absent keys take their defaults: "N/A" for the company, the title and the
      sponsorship, "#" for the link, and "" for the three list columns. */
  lemma CellDefaults(d: Dict, localDate: DateFormatter)
    requires JobCells(DictV(d), localDate).Ok?
    ensures var c := JobCells(DictV(d), localDate).value;
      && ("company_name" !in Keys(d) ==> c.companyName == "N/A")
      && ("title" !in Keys(d) ==> c.title == "N/A")
      && ("sponsorship" !in Keys(d) ==> c.sponsorship == "N/A")
      && ("url" !in Keys(d) ==> c.url == "#")
      && ("terms" !in Keys(d) ==> c.terms == "")
      && ("locations" !in Keys(d) ==> c.locations == "")
      && ("degrees" !in Keys(d) ==> c.degrees == "")
  {
  }

  /** Missing keys never fail a row: a dict whose posting time is absent or an
      integer the formatter accepts, and whose list columns are absent or lists
      of strings, has a row. */
  lemma RowOfWellFormedJob(d: Dict, localDate: DateFormatter)
    requires "date_posted" !in Keys(d) ==> localDate(0).Ok?
    requires "date_posted" in Keys(d) ==>
      Get(d, "date_posted", NoneV).IntV? && localDate(Get(d, "date_posted", NoneV).i).Ok?
    requires forall k :: k in ["terms", "locations", "degrees"] && k in Keys(d) ==>
      Get(d, k, NoneV).ListV? && forall i :: 0 <= i < |Get(d, k, NoneV).items| ==> Get(d, k, NoneV).items[i].StrV?
    ensures JobCells(DictV(d), localDate).Ok?
  {
    assert "terms" in ["terms", "locations", "degrees"];
    assert "locations" in ["terms", "locations", "degrees"];
    assert "degrees" in ["terms", "locations", "degrees"];
  }

  /** Values are inserted verbatim: a title holding markup keeps it in its
      cell, unlike the escaped cells of the digest in shared/tasks.py. */
  lemma CellsAreVerbatim(d: Dict, localDate: DateFormatter, key: string, s: string)
    requires JobCells(DictV(d), localDate).Ok?
    requires key in {"company_name", "title", "url", "sponsorship"}
    requires Get(d, key, NoneV) == StrV(s)
    ensures var c := JobCells(DictV(d), localDate).value;
      (if key == "company_name" then c.companyName
       else if key == "title" then c.title
       else if key == "url" then c.url
       else c.sponsorship) == s
  {
  }

  // ---------------------------------------------------------------------------
  // sendEmailAlert

  const SubjectPrefix: string := "\U{2B50}\U{FE0F} Grad INTERN List : "
  const SubjectSuffix: string := " New Internship(s) Posted \U{2B50}\U{FE0F}"

  /** The subject of line 83 for `count` jobs. */
  function Subject(count: nat): string {
    SubjectPrefix + NatToString(count) + SubjectSuffix
  }

  /** The subject names the number of jobs: the digits after the prefix read
      back as the count. */
  lemma SubjectNamesCount(count: nat)
    ensures var s := Subject(count);
      var digits := s[|SubjectPrefix|..|s| - |SubjectSuffix|];
      StartsWith(s, SubjectPrefix) && AllDigits(digits) && DigitsValue(digits) == count
  {
    var s := Subject(count);
    assert s[|SubjectPrefix|..|s| - |SubjectSuffix|] == NatToString(count);
    DigitsValueOfNatToString(count);
  }

  /** `sendEmailAlert(recent_jobs)`: the e-mail it hands to the provider, sent
      to the `EMAILS` string as given, or the exception building its table raised. */
  function AlertFor(recentJobs: seq<Value>, emails: string, localDate: DateFormatter): (r: Result<Email, Exc>)
    ensures r.Ok? <==> JobsTable(recentJobs, localDate).Ok?
  {
    match JobsTable(recentJobs, localDate)
    case Err(e) => Err(e)
    case Ok(html) => Ok(Email(Sender, StrV(emails), Subject(|recentJobs|), html))
  }
}
