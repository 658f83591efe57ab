# Grad INTERN List, modelled in Dafny

Grad INTERN List is an internship-alert service. It has three parts:

- **The background run** (`process_recent_jobs_background`). It fetches the
  Simplify `listings.json` and keeps the listings posted in the last
  `minutes`. It then flattens those listings into seven columns and fetches
  LinkedIn jobs through Apify. Each Apify job is fingerprinted with SHA-256
  over `title-company-url`, and the fingerprint is stored in Redis when it is
  new. The run e-mails an HTML digest of two tables. It records its status,
  progress and JSON result in Redis under `status:{id}`, `progress:{id}` and
  `result:{id}`.
- **The `/recent_jobs` endpoint** (`get_recent_jobs`). It returns the recent
  active listings and e-mails them as one HTML table (`sendEmailAlert`).
- **The resume scorer.** It holds a resume's text, loaded from a PDF file, a
  PDF URL (GitHub `blob` links rewritten to raw links) or plain text. It asks
  Gemini for a `SCORE:` line and clamps the number it reads to 0..100.

The model's modules follow those files:

| module | file | what it holds |
|---|---|---|
| `Tasks` | `shared/tasks.py` | Redis writes; the recency filter; `normalize_simplify_jobs`; the Apify dedup loop; the digest; the run as a function (`RunSpec`) and as the methods of the `JobRunner` class |
| `Digest` | `shared/tasks.py` | `generate_html_table`, with its loops as methods |
| `TaskProperties`, `RunProperties`, `ListingProperties` | `shared/tasks.py` | what the dedup loop, the whole run and the Simplify filter promise |
| `Fingerprint`, `Clock` | `utils.py` | `hash_job` over an injected SHA-256; `timestamp_to_datetime` |
| `RecentJobs` | `main.py` | `get_recent_jobs` as a loop method, and its specification |
| `Configs` | `configs.py` | `format_jobs_html_table`; the e-mail `sendEmailAlert` builds |
| `ResumeScoring` | `resume_scorer.py` | the `ResumeScorer` class; the module-level scorer as the `ScorerRegistry` class |
| `PyValue`, `Text`, `Json`, `KeyValueStore`, `Sequences`, `Wrappers`, `Mail` | — | Python values and exceptions, string operations, `json.dumps`, the Redis store, and sequence helpers |

Values are modelled as follows:

- Python values are a `Value` datatype: None, bool, int, str, list, and dict
  as an ordered list of entries.
- An exception is an `Exc` value, and `str(exc)` is its message.
- Redis is a `map<string, string>` together with the trace of `SETEX` writes
  that produced it.
- Time is integer microseconds since the epoch.
- The clock, both HTTP fetches, the Apify call, the e-mail provider, SHA-256,
  the PDF reader, the local-time date formatter and Gemini are all
  parameters. They are given either as a `World` of outcomes or as functions.

## Model

| member | source | states |
|---|---|---|
| Tasks.JobRunner.Setex | shared/tasks.py:31-40 | `SETEX` appends its write to the trace, sets that key in the store, and keeps the store equal to the trace applied to the initial store |
| Tasks.JobRunner.SetStatus | shared/tasks.py:31-32 | `_set_status` writes `status:{id}` and changes no other key |
| Tasks.JobRunner.SetProgress | shared/tasks.py:35-36 | `_set_progress` writes the decimal form of the value to `progress:{id}` |
| Tasks.JobRunner.SetResult | shared/tasks.py:39-40 | `_set_result` writes the JSON of the result to `result:{id}` |
| Tasks.JobRunner.Exists | shared/tasks.py:161 | `r.exists(key)` holds exactly when the key is in the store |
| Tasks.JobRunner.Start | shared/tasks.py:118-119 | the run first writes status `started`, then progress 0 |
| Tasks.JobRunner.FailListings | shared/tasks.py:127-132 | a failed listings fetch writes status `failed`, progress 100 and the error result, in that order |
| Tasks.JobRunner.Finish | shared/tasks.py:188-190 | success writes progress 100, status `finished` and the counts |
| Tasks.JobRunner.Abort | shared/tasks.py:194-199 | the `except` block writes progress 100, status `failed` and the error |
| Tasks.JobRunner.Send | shared/tasks.py:174-179 | the provider either takes the e-mail into the outbox or raises; the store is untouched either way |
| Tasks.JobRunner.DedupJob | shared/tasks.py:149-163 | one iteration of the Apify loop matches one step of the dedup specification, and its writes are exactly the writes added to the trace |
| Tasks.JobRunner.DedupApifyJobs | shared/tasks.py:146-163 | the loop's lists, writes and exception equal `DedupRun` over the store the loop started from |
| Tasks.JobRunner.RunTry | shared/tasks.py:117-192 | the `try` block's writes, sent e-mails and outcome are those of `RunBody` |
| Tasks.JobRunner.ProcessRecentJobsBackground | shared/tasks.py:115-199 | the run's writes, store, outbox and return value are those of `RunSpec` |
| Tasks.IsRecent | shared/tasks.py:136-138 | the condition raises on a listing that is not a dict |
| Tasks.NormalizeSimplifyJobs | shared/tasks.py:47-60 | the loop builds what `NormalizeSimplify` specifies, raising at the first listing that fails |
| Tasks.NormalizeSimplifyPrefixError | shared/tasks.py:50-59 | once a listing raises, the later listings change nothing |
| Tasks.DedupFailureSticks | shared/tasks.py:149-163 | once an Apify iteration raises, later iterations change nothing |
| ListingProperties.FilterRecentSelects | shared/tasks.py:135-139 | the comprehension raises exactly when its condition raises on some listing; otherwise it is the listings whose condition holds, unmodified and in order |
| ListingProperties.IsRecentMeaning | shared/tasks.py:137-138 | a listing is kept iff it is a dict, `active` is truthy (absent counts as False), `is_visible` is truthy (absent counts as True), and `date_posted` (absent counts as 0) converts to a time in range at or after the cutoff; a bad `date_posted` raises |
| ListingProperties.NormalizeSimplifyOnePerJob | shared/tasks.py:47-60 | normalising raises exactly when some record cannot be built; otherwise it gives one record per listing, in order |
| ListingProperties.SimplifyRecordCopies | shared/tasks.py:51-57 | the record has the seven keys in order; `company_name` falls back to `companyName` and `url` to `jobUrl` when the first is falsy; `title` and `sponsorship` are copied |
| ListingProperties.SimplifyRecordJoins | shared/tasks.py:54-58 | `terms`, `locations` and `degrees` are "" when the listing lacks them |
| ListingProperties.SimplifyRecordJoinsStrings | shared/tasks.py:54-58 | a `terms`, `locations` or `degrees` field that holds a list of strings becomes those strings joined with ", " |
| ListingProperties.SimplifyRecordRejectsNonString | shared/tasks.py:54-58 | a `terms`, `locations` or `degrees` list that holds a non-string makes the record raise `TypeError` |
| ListingProperties.FilterOrRaiseSelects | shared/tasks.py:135-139 | a filter whose condition does not raise keeps exactly the items whose verdict is true |
| ListingProperties.MapOrRaiseElements | shared/tasks.py:49-60 | a map whose function does not raise gives one result per item, in order |
| TaskProperties.FirstUnseenSelect | shared/tasks.py:160-163 | the fingerprints the loop admits are distinct and are exactly those not stored before the loop |
| TaskProperties.DedupStepCases | shared/tasks.py:150-163 | an iteration that does not raise only counts a stored fingerprint; it lists a new one and writes its `Job Url` under it |
| TaskProperties.DedupWritesFresh | shared/tasks.py:160-163 | a loop with no exception writes only fingerprints that were not stored when it began, and each at most once |
| TaskProperties.DedupRunFacts | shared/tasks.py:149-163 | after a loop with no exception: one record per job; the new jobs are those whose fingerprint was neither stored nor seen earlier; one write per new job; every fingerprint stored |
| TaskProperties.NewJobsCountFreshFingerprints | shared/tasks.py:149-163 | `len(new_jobs)` is the number of distinct fingerprints not stored before the loop, at most the number of jobs, and afterwards every fingerprint is stored |
| TaskProperties.DedupAllStored | shared/tasks.py:160-163 | a loop over jobs whose fingerprints are all stored finds nothing new and writes nothing |
| TaskProperties.RerunFindsNothingNew | shared/tasks.py:149-163 | running the loop again over the same jobs, against the store it left, finds nothing new and writes nothing |
| RunProperties.RunKeys | shared/tasks.py:31-40 | the status, progress and result keys are distinct and all contain ':', so no fingerprint can clash with them |
| RunProperties.BodyRecords | shared/tasks.py:117-192 | what the `try` block records: a failed fetch gives progress 0, 100 and status started, failed; success gives progress 0, 25, 75, 100, status started, finished and the counts; an exception leaves status `started`; a failed fetch writes to no key but the run's three |
| RunProperties.ListingsFailureLeavesOtherKeys | shared/tasks.py:122-132 | when the listings fetch fails, the run returns the error, sends nothing, and leaves every key other than its three as it was |
| RunProperties.RunRecords | shared/tasks.py:115-199 | every run writes progress 0 first and 100 last, with 25 and 75 in order as far as it got; status goes from `started` to `finished` exactly when it returns counts, else to `failed`; the result is written once |
| RunProperties.RunLeavesFinalState | shared/tasks.py:188-199 | after any run the store holds progress "100", the final status, and the JSON of what the run returned |
| RunProperties.DedupStoreFresh | shared/tasks.py:118-163 | the run's own keys written before the loop do not change which fingerprints are new |
| RunProperties.SuccessPath | shared/tasks.py:123-192 | a run returns counts only when both fetches, the filter, the dedup loop, the digest and the send all succeeded, and then it sends exactly one e-mail |
| RunProperties.RunSucceeds | shared/tasks.py:141-192 | a successful run reports `len(simplify_jobs)`, all Apify jobs and the fresh-fingerprint count, and sends one digest whose LinkedIn table lists every Apify job |
| RunProperties.RunFailureSendsNothing | shared/tasks.py:174-199 | a run that returns an error sent no e-mail |
| RunProperties.FingerprintsOutliveFailures | shared/tasks.py:160-199 | once the dedup loop finished, every fingerprint stays stored whatever fails later; a failed send fails the run and sends nothing |
| RunProperties.SecondRunFindsNoNewJobs | shared/tasks.py:149-192 | a second run over the same Apify jobs, against the store the first left, reports `new_apify_jobs == 0` |
| Digest.GenerateHtmlTable | shared/tasks.py:66-109 | the loops build exactly `TableHtml`: the empty message, or the framed header cells and rows |
| Digest.HeaderCells | shared/tasks.py:86-88 | the header loop gives one `<th>` per column, in order |
| Digest.TableRows | shared/tasks.py:90-107 | the row loop gives every job's `<tr>` row in order (`TrRows`), or the exception of the first cell that raises |
| Digest.RowCells | shared/tasks.py:92-106 | the cell loop of one row gives its `<td>` cells, or the first cell's exception |
| Digest.FilterColumnsLookup | shared/tasks.py:74 | keeping some columns does not change the value found under any of them |
| Digest.WrapIsConcat | shared/tasks.py:90-107 | the rows succeed exactly when every piece does, and then they are the concatenation of the tagged pieces |
| Digest.TableBuiltIffCellsRender | shared/tasks.py:66-109 | a non-empty table is built exactly when every cell of every row renders |
| Digest.TableLayout | shared/tasks.py:80-109 | a non-empty table is its header cells, one per column, then one row per job with one cell per column |
| Digest.MissingCellIsEmpty | shared/tasks.py:93 | a column the job lacks is an empty cell |
| Digest.TextCellIsEscaped | shared/tasks.py:103-105 | text outside the link columns carries no tag, and unescaping it gives the text back |
| Digest.LinkCell | shared/tasks.py:100-101 | a non-empty URL in a link column is a "Link" anchor to it; an empty one is an empty cell |
| Digest.ListCell | shared/tasks.py:94-95 | a list of strings is joined with ", "; a list holding a non-string raises |
| Digest.SimplifyCellsAreJobValues | shared/tasks.py:72-74 | the Simplify table shows each job's own value in each of its columns |
| Json.UnescapeEscapeJson | shared/tasks.py:39-40 | decoding the escaped body `json.dumps` writes for a string gives the string back |
| Json.QuoteIsPrintableAscii | shared/tasks.py:39-40 | the encoding is printable ASCII, whatever the text |
| Json.EscapeJsonPlain | shared/tasks.py:39-40 | printable ASCII other than `"` and `\` is written unchanged |
| KeyValueStore.StoreHoldsLastValue | shared/tasks.py:31-40 | under each written key, the store holds the last value written to it |
| KeyValueStore.LastWriteWins | shared/tasks.py:31-40 | a key not written after a write holds that write's value |
| KeyValueStore.ApplyWritesKeepsKeys | shared/tasks.py:160-163 | writes never remove a key |
| KeyValueStore.ApplyWritesElsewhere | shared/tasks.py:31-40 | a key no write names keeps its presence and value |
| KeyValueStore.Encode | shared/tasks.py:163 | the client stores a str as is and an int in decimal, and raises on None, bool, list and dict |
| Fingerprint.HashJob | utils.py:34-39 | for a digester returning 64 lower-case hex characters, the fingerprint is such a string and never contains ':' |
| Fingerprint.HashDependsOnKeyFieldsOnly | utils.py:34-39 | jobs that agree on the six key fields have the same fingerprint, whatever their other keys |
| Fingerprint.KeyComponentFallback | utils.py:35-37 | a truthy capitalised field gives its own text; when it is falsy and the lower-case field is absent, the component is "" |
| Fingerprint.KeyFieldsOfStrings | utils.py:38 | for three non-empty strings the key text is `title-company-url` |
| Fingerprint.SeparatorCollision | utils.py:38 | the "-" separator lets different (title, company) pairs share a key |
| Fingerprint.Utf8Encode | utils.py:39 | `encode()` gives one to four bytes per character, and exactly one per character for ASCII text |
| Clock.TimestampToDatetime | utils.py:28-29 | `fromtimestamp` succeeds exactly within the datetime range, giving `ts` seconds in microseconds |
| Clock.CInt | utils.py:28-29 | the value converted to a C `int` lies in the 32-bit range and is unchanged when it already does |
| Clock.YearOfFirstSecond | utils.py:28-29 | the first second of the datetime range falls in year 1 |
| Clock.YearOfLastSecond | utils.py:28-29 | the last second of the datetime range falls in year 9999 |
| Clock.YearBeforeRange | utils.py:28-29 | the second before the range falls in year 0 |
| Clock.YearAfterRange | utils.py:28-29 | the second after the range falls in year 10000 |
| Clock.YearOfMillisecondTimestamp | utils.py:28-29 | a millisecond timestamp of 10^12 read as seconds falls in year 33658 |
| Clock.MillisecondTimestampError | utils.py:28-29 | `fromtimestamp(10**12)` raises `ValueError("year 33658 is out of range")` |
| Clock.Cutoff | shared/tasks.py:134 | `now - timedelta(minutes)` succeeds exactly when the result is a representable instant |
| Clock.OversizedDeltaLeavesRange | shared/tasks.py:134 | more than 999999999 days of minutes always leaves the datetime range and raises `OverflowError` |
| PyValue.ReprStrOfPlainText | shared/tasks.py:106 | the `repr` of printable text without backslashes is the text in single quotes, or in double quotes when it holds a single quote and no double quote |
| PyValue.ToInt | main.py:52 | `int()` of an int is that int, of a str is `ParseIntLiteral`, and of None, a list or a dict raises `TypeError` |
| PyValue.ParseIntLiteral | main.py:52 | `int()` of a str raises nothing but `ValueError` |
| PyValue.ParseIntOfNumeral | main.py:52 | an optional sign and digits with single underscores between them read as the value of the digits, negated after '-'; more than 4300 digits (underscores not counted) raise the digit-limit `ValueError` |
| PyValue.ParseIntOfSignedDigits | main.py:52 | an optional sign and plain digits read as their value, negated after '-', or raise the digit-limit `ValueError` beyond 4300 digits |
| PyValue.ParseIntOfDigits | shared/tasks.py:138 | plain digits read as their value; the empty text is the invalid literal `''` and more than 4300 digits exceed the limit |
| PyValue.ParseIntOfIntToString | shared/tasks.py:138 | `int(str(i)) == i` for every integer of at most 4300 digits; a longer decimal form raises the digit-limit `ValueError` |
| PyValue.ParseIntIgnoresUnderscore | main.py:52 | an underscore between two digit groups changes nothing: `int("1_000") == int("1000")` |
| PyValue.ParseIntOfOtherDigits | main.py:52 | decimal digits of other scripts turn into the ASCII digits they stand for and read as their value, with the same empty-text and limit errors |
| PyValue.ArabicIndicDigit | main.py:52 | U+0660..U+0669 stand for the digits 0..9 |
| RecentJobs.GetRecentJobs | main.py:24-63 | the loop with its `continue`s returns and sends exactly what `RecentJobsSpec` specifies |
| RecentJobs.Keeps | main.py:42-57 | a listing is judged without raising exactly when it is a dict |
| RecentJobs.KeptIsSelection | main.py:40-57 | the loop raises exactly when some listing is not a dict; otherwise it returns the kept listings, unmodified and in order |
| RecentJobs.KeptPassed | main.py:42-57 | every returned listing passed the keep test |
| RecentJobs.KeepsMeaning | main.py:44-56 | a listing is kept iff it is a dict with a truthy `active` (absent is False), a truthy `is_visible` (absent is True), and a `date_posted` that is present, not None, converts with `int()` to a timestamp in the datetime range, and lies at or after the cutoff |
| RecentJobs.RecentJobsHttpErrors | main.py:26-35 | a failed fetch is a 503 and a non-JSON body a 500; no other path raises `HTTPException` |
| RecentJobs.ListingsSinceSelection | main.py:37-57 | the returned listings are the body's listings selected by the keep test |
| RecentJobs.RecentJobsSelection | main.py:40-63 | a returned list comes from a fetched body and is exactly what the keep test selects from its listings |
| RecentJobs.RecentJobsAlert | main.py:59-63 | an e-mail is sent exactly when the result is non-empty, and it is the table e-mail of those jobs |
| Configs.FormatJobsHtmlTable | configs.py:28-74 | the loop builds exactly `JobsTable`: the fixed message for no jobs, or the header, the rows and the closing tags |
| Configs.JobsTable | configs.py:30-31 | no jobs gives the fixed "No new internships" paragraph |
| Configs.JobCells | configs.py:50-58 | a job's cells can be computed only when it is a dict |
| Configs.RowsAreRowList | configs.py:50-71 | the rows succeed exactly when every job's row does, and then they are the concatenation of those rows |
| Configs.TableShape | configs.py:33-74 | a non-empty table is the header, one row per job in order, then the closing tags, and it fails exactly when some job's cells fail |
| Configs.CellDefaults | configs.py:52-58 | absent keys give "N/A" for company, title and sponsorship, "#" for the link, and "" for the list columns |
| Configs.RowOfWellFormedJob | configs.py:50-58 | a dict whose `date_posted` is an int the formatter accepts (or absent, with 0 accepted) and whose list columns, when present, hold strings always has a row |
| Configs.CellsAreVerbatim | configs.py:55-69 | string values of company, title, url and sponsorship are inserted as they are, unescaped |
| Configs.SubjectNamesCount | configs.py:83 | the subject's number reads back as the count of jobs |
| Configs.AlertFor | configs.py:77-85 | the alert is built exactly when its table is |
| ResumeScoring.ResumeScorer.constructor | resume_scorer.py:23-29 | a new scorer has no resume and uses the Gemini flash-lite model |
| ResumeScoring.ResumeScorer.LoadPages | resume_scorer.py:31-59 | a reader error is re-raised and leaves the resume unchanged; otherwise the resume is the stripped text of the pages |
| ResumeScoring.ResumeScorer.LoadResumeFromPdf | resume_scorer.py:31-42 | loading a local PDF sets the stripped page text, or raises and changes nothing |
| ResumeScoring.ResumeScorer.LoadResumeFromUrl | resume_scorer.py:44-59 | the PDF is fetched from the rewritten URL and loaded the same way |
| ResumeScoring.ResumeScorer.LoadResumeFromText | resume_scorer.py:61-64 | the resume becomes the stripped text |
| ResumeScoring.ResumeScorer.ScoreJobMatch | resume_scorer.py:66-92 | scoring returns what `ScoreReply` specifies for the current resume |
| ResumeScoring.ScoreReply | resume_scorer.py:66-92 | raises `ValueError` exactly when no resume is loaded or it is empty; otherwise the score is in 0..100 |
| ResumeScoring.NoDigitScoresZero | resume_scorer.py:88-92 | a first line without digits scores 0 |
| ResumeScoring.WellFormedReplyScores | resume_scorer.py:86-89 | a reply `SCORE: n` with n in 0..100 scores n |
| ResumeScoring.ReportedScoreReadsBack | resume_scorer.py:88-89 | parsing `SCORE: n` gives n clamped to 0..100, or the digit-limit `ValueError` when n has more than 4300 digits |
| ResumeScoring.ParseScoreReadsFirstLineDigits | resume_scorer.py:87-89 | a first line without digits raises `ValueError`, and one with more than 4300 digits the digit-limit `ValueError`; otherwise the score is the value of its digits, clamped |
| ResumeScoring.ParseScoreIsClampedInt | resume_scorer.py:88-89 | the score is `max(0, min(100, int(digits)))` of the kept digits, and `int()`'s `ValueError` is passed on |
| ResumeScoring.OverlongScoreScoresZero | resume_scorer.py:88-92 | a `SCORE: n` reply whose n has more than 4300 digits scores 0 |
| ResumeScoring.Clamp | resume_scorer.py:89 | the result is in 0..100 and equals the score when the score is already in range |
| ResumeScoring.RawUrlRewritesEveryOccurrence | resume_scorer.py:47-48 | a URL without both "github.com" and "blob" is unchanged; otherwise every "github.com" becomes "raw.githubusercontent.com" and then every "/blob/" becomes "/" |
| ResumeScoring.SourcePrecedence | resume_scorer.py:100-107 | a URL, or a path starting with http(s), wins over a path, which wins over text; nothing given loads nothing |
| ResumeScoring.ResumeScorer.LoadFrom | resume_scorer.py:100-107 | loading succeeds exactly when nothing is given or the chosen source yields text; the resume becomes that text, or stays as it was |
| ResumeScoring.ScorerRegistry.InitializeResumeScorer | resume_scorer.py:97-108 | an empty API key raises `ValueError` and changes nothing; otherwise a fresh scorer is installed even when loading fails, holds the loaded text, and is returned exactly when nothing was given or the chosen source yielded text |
| ResumeScoring.ScorerRegistry.GetJobScore | resume_scorer.py:110-115 | with no scorer the score is 0; otherwise it is the scorer's `ScoreReply`, in 0..100 |

## Left out

- Floats are not modelled: `date_posted` and the Apify fields are ints, strings, lists or dicts, and `float` values of `isinstance(val, (int, float))` at shared/tasks.py:96 are absent.
- Logging and the FastAPI app wiring (`/health`, response models) are left out; an exception that escapes `get_recent_jobs` is returned as `Unhandled(exc)` rather than mapped to FastAPI's 500 response.
- Network, Redis TTL expiry and concurrency are left out: TTLs are recorded in each write but never expire, and one run executes at a time.
- SHA-256, the PDF reader, the local time zone used by `strftime("%m/%d/%Y")` and the Gemini client are injected functions; only the fact that a digest is 64 lower-case hex characters is assumed, as a precondition (`IsHexDigester`).
- `fetch_apify_jobs` (utils.py:44-58) is an outcome in the `World`, not modelled; `env_get` and the module-level configuration are parameters.
- The prompt text of `score_job_match` is not modelled: only the reply matters to the score.
- ResumeScoring.ParseScore: the `str.isdigit` filter is taken as ASCII '0'..'9'. CPython's also keeps the decimal digits of other scripts, which `int()` then reads, and other digit characters such as superscripts, which make `int()` raise and the score 0. The model drops both kinds. Underscores never reach `int()` here, because the filter removes them, and the 4300-digit limit is modelled.
- PyValue.ParseIntLiteral: the digits of other scripts come from the Unicode 15.0 decimal-digit table that CPython 3.12 uses. A different Unicode version would change the table. The non-ASCII whitespace is `Text.IsSpace`'s list.
- Text.IntToString: CPython 3.12's `str()` raises `ValueError` for an int of more than 4300 digits; the model always renders the number. The ints rendered are progress values, counts, years and day counts.
- The run does what the code does, which differs from the documented behaviour in three places. A failure of `fetch_apify_jobs` or of the e-mail send fails the run. The LinkedIn table lists every flattened Apify job, not only the new ones. A new Apify job whose `Job Url` is None makes `setex` raise.
- ResumeScoring.ResumeScorer.constructor: the empty-API-key `ValueError` of `__init__` (resume_scorer.py:25-26) is raised by `ScorerRegistry.InitializeResumeScorer`, its only caller, before the scorer is built; the Gemini client itself is not modelled.
- PyValue.ReprStr: escapes quotes, backslashes, `\t`, `\n`, `\r`, the non-printable characters up to U+00FF and the Unicode space separators; other non-printable characters above U+00FF (format, private-use and unassigned code points, which `str.isprintable` rejects) are copied rather than escaped, because the model has no Unicode character database.
- Fingerprint.Utf8Encode: a lone surrogate makes `str.encode()` raise `UnicodeEncodeError`; Dafny's `char` holds only Unicode scalar values, so such strings and that error do not exist in the model.
- Clock.TimestampToDatetime and Clock.Cutoff give the messages CPython 3.12 gives on 64-bit Linux with glibc (a 64-bit `time_t`, a 32-bit C `int`); other platforms word and order these errors differently.
- worker.py is not part of this model.
