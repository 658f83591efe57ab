/** shared/tasks.py: the background run. It records the run's state under
    `status:{id}`, `progress:{id}` and `result:{id}`; keeps the recent Simplify
    listings and flattens them; flattens the Apify (LinkedIn) jobs and
    deduplicates them against hash keys in the store; builds the digest and
    e-mails it. The outside world (the listings fetch, the Apify call, the
    clock and the e-mail provider) is the `World` a run is given. */
module Tasks {
  import opened Wrappers
  import opened Text
  import opened PyValue
  import opened Clock
  import opened KeyValueStore
  import opened Mail
  import opened Fingerprint
  import opened Digest
  import opened Sequences
  import Json

  /** `JOB_TTL_SECONDS`: three days. */
  const JobTtlSeconds: int := 3 * 24 * 60 * 60

  function StatusKey(id: string): string { "status:" + id }
  function ProgressKey(id: string): string { "progress:" + id }
  function ResultKey(id: string): string { "result:" + id }

  /** What a run returns and stores under `result:{id}`. */
  datatype RunResult =
    | Counts(recentJobs: nat, totalApifyJobs: nat, newApifyJobs: nat)
    | Failed(error: string)

  /** `json.dumps(result)`. */
  function ResultJson(r: RunResult): string {
    match r
    case Counts(recent, total, newCount) =>
      "{\"recent_jobs_count\": " + IntToString(recent) + ", \"total_apify_jobs\": " + IntToString(total)
      + ", \"new_apify_jobs\": " + IntToString(newCount) + "}"
    case Failed(msg) => "{\"error\": " + Json.Quote(msg) + "}"
  }

  /** `_set_status`, `_set_progress` (an int, stored in decimal) and `_set_result`. */
  function StatusWrite(id: string, value: string): Write { Write(StatusKey(id), JobTtlSeconds, value) }
  function ProgressWrite(id: string, value: int): Write { Write(ProgressKey(id), JobTtlSeconds, IntToString(value)) }
  function ResultWrite(id: string, r: RunResult): Write { Write(ResultKey(id), JobTtlSeconds, ResultJson(r)) }

  // ---------------------------------------------------------------------------
  // Simplify listings

  /** The condition of the comprehension at lines 135-139 for one listing:
      `active` truthy (absent: False), `is_visible` truthy (absent: True), and
      `date_posted` (absent: 0) no earlier than the cutoff. */
  function IsRecent(j: Value, cutoff: int): (r: Result<bool, Exc>)
    ensures !j.DictV? ==> r.Err?
  {
    var d :- AsDict(j);
    if !Truthy(Get(d, "active", BoolV(false))) then Ok(false)
    else if !Truthy(Get(d, "is_visible", BoolV(true))) then Ok(false)
    else
      var ts :- ToInt(Get(d, "date_posted", IntV(0)));
      var t :- TimestampToDatetime(ts);
      Ok(t >= cutoff)
  }

  /** `[j for j in items if …]`; the first listing whose condition raises ends it. */
  function FilterRecent(items: seq<Value>, cutoff: int): Result<seq<Value>, Exc>
    decreases |items|
  {
    if items == [] then Ok([])
    else
      var done :- FilterRecent(items[..|items| - 1], cutoff);
      var keep :- IsRecent(items[|items| - 1], cutoff);
      Ok(if keep then done + [items[|items| - 1]] else done)
  }

  /** Lines 134-139: the cutoff `minutes` before `now`, then the filter. */
  function RecentListings(listings: Value, now: int, minutes: int): Result<seq<Value>, Exc> {
    var cutoff :- Cutoff(now, minutes);
    var items :- Iterate(listings);
    FilterRecent(items, cutoff)
  }

  /** One record of `normalize_simplify_jobs`. */
  function SimplifyRecord(job: Value): Result<Dict, Exc> {
    var d :- AsDict(job);
    var terms :- JoinValue(", ", Get(d, "terms", ListV([])));
    var locations :- JoinValue(", ", Get(d, "locations", ListV([])));
    var degrees :- JoinValue(", ", Get(d, "degrees", ListV([])));
    Ok([("title", Get(d, "title", NoneV)),
        ("company_name", Or(Get(d, "company_name", NoneV), Get(d, "companyName", NoneV))),
        ("terms", StrV(terms)),
        ("url", Or(Get(d, "url", NoneV), Get(d, "jobUrl", NoneV))),
        ("locations", StrV(locations)),
        ("sponsorship", Get(d, "sponsorship", NoneV)),
        ("degrees", StrV(degrees))])
  }

  /** `normalize_simplify_jobs(jobs)`. */
  function NormalizeSimplify(jobs: seq<Value>): Result<seq<Dict>, Exc>
    decreases |jobs|
  {
    if jobs == [] then Ok([])
    else
      var done :- NormalizeSimplify(jobs[..|jobs| - 1]);
      var rec :- SimplifyRecord(jobs[|jobs| - 1]);
      Ok(done + [rec])
  }

  /** The loop of `normalize_simplify_jobs`. */
  method NormalizeSimplifyJobs(jobs: seq<Value>) returns (r: Result<seq<Dict>, Exc>)
    ensures r == NormalizeSimplify(jobs)
  {
    var normalized: seq<Dict> := [];
    var i := 0;
    while i < |jobs|
      invariant 0 <= i <= |jobs|
      invariant NormalizeSimplify(jobs[..i]) == Ok(normalized)
    {
      NormalizeSimplifySnoc(jobs, i);
      var rec := SimplifyRecord(jobs[i]);
      if rec.Err? {
        NormalizeSimplifyPrefixError(jobs, i + 1);
        return Err(rec.error);
      }
      normalized := normalized + [rec.value];
      i := i + 1;
    }
    assert jobs[..i] == jobs;
    return Ok(normalized);
  }

  /** One more listing: the prefix's records and its own, or its exception. */
  lemma NormalizeSimplifySnoc(jobs: seq<Value>, i: nat)
    requires i < |jobs| && NormalizeSimplify(jobs[..i]).Ok?
    ensures var rec := SimplifyRecord(jobs[i]);
      NormalizeSimplify(jobs[..i + 1]) ==
        if rec.Err? then Err(rec.error) else Ok(NormalizeSimplify(jobs[..i]).value + [rec.value])
  {
    assert jobs[..i + 1][..i] == jobs[..i];
  }

  lemma {:induction false} NormalizeSimplifyPrefixError(jobs: seq<Value>, k: nat)
    requires k <= |jobs| && NormalizeSimplify(jobs[..k]).Err?
    ensures NormalizeSimplify(jobs) == NormalizeSimplify(jobs[..k])
    decreases |jobs|
  {
    if k < |jobs| {
      var init := jobs[..|jobs| - 1];
      assert init[..k] == jobs[..k];
      NormalizeSimplifyPrefixError(init, k);
    } else {
      assert jobs[..k] == jobs;
    }
  }

  /** Lines 134-141: the recent listings, flattened. */
  function SimplifyJobs(listings: Value, now: int, minutes: int): Result<seq<Dict>, Exc> {
    var recent :- RecentListings(listings, now, minutes);
    NormalizeSimplify(recent)
  }

  // ---------------------------------------------------------------------------
  // Apify jobs and deduplication

  /** The record built at lines 150-158. */
  function ApifyRecord(j: Dict): Dict {
    [("Title", Get(j, "title", NoneV)),
     ("Company Name", Get(j, "companyName", NoneV)),
     ("Location", Get(j, "location", NoneV)),
     ("Posted time", Get(j, "postedTime", NoneV)),
     ("Job Url", Get(j, "jobUrl", NoneV)),
     ("Applications count", Get(j, "applicationsCount", NoneV)),
     ("Employment type", Get(j, "contractType", NoneV))]
  }

  /** The state of the dedup loop: `apify_normalized`, `new_jobs`, the `SETEX`
      writes of hash keys so far, and the exception that ended the loop. */
  datatype Dedup = Dedup(normalized: seq<Dict>, newJobs: seq<Dict>, writes: seq<Write>, failure: Option<Exc>)

  /** One iteration of the loop at lines 149-163 against the store `s0` the
      loop started from. */
  function DedupStep(s0: Store, acc: Dedup, j: Value, sha256: Digester): Dedup {
    if acc.failure.Some? then acc
    else
      match AsDict(j)
      case Err(e) => acc.(failure := Some(e))
      case Ok(d) =>
        var norm := ApifyRecord(d);
        var h := HashJob(norm, sha256);
        if h in ApplyWrites(s0, acc.writes) then acc.(normalized := acc.normalized + [norm])
        else
          match Encode(Get(norm, "Job Url", StrV("")))
          case Err(e) =>
            acc.(normalized := acc.normalized + [norm], newJobs := acc.newJobs + [norm], failure := Some(e))
          case Ok(v) =>
            acc.(normalized := acc.normalized + [norm], newJobs := acc.newJobs + [norm],
                 writes := acc.writes + [Write(h, JobTtlSeconds, v)])
  }

  /** The dedup loop over the Apify jobs. */
  function DedupRun(s0: Store, jobs: seq<Value>, sha256: Digester): Dedup
    decreases |jobs|
  {
    if jobs == [] then Dedup([], [], [], None)
    else DedupStep(s0, DedupRun(s0, jobs[..|jobs| - 1], sha256), jobs[|jobs| - 1], sha256)
  }

  // ---------------------------------------------------------------------------
  // The digest e-mail

  const SimplifyTitle: string := "\U{1F9E9} Simplify Jobs"
  const LinkedInTitle: string := "\U{1F4BC} LinkedIn Jobs"

  /** Lines 168-171: the Simplify table and the LinkedIn table of every
      flattened Apify job. */
  function DigestHtml(simplify: seq<Dict>, apify: seq<Dict>): Result<string, Exc> {
    match TableHtml(SimplifyTitle, simplify, false)
    case Err(e) => Err(e)
    case Ok(a) =>
      match TableHtml(LinkedInTitle, apify, true)
      case Err(e) => Err(e)
      case Ok(b) => Ok("<div style='font-family: Arial, sans-serif;'>" + a + b + "</div>")
  }

  function Subject(simplifyCount: nat, newCount: nat): string {
    "\U{2B50}\U{FE0F} Grad INTERN List : " + IntToString(simplifyCount) + " Simplify + "
    + IntToString(newCount) + " LinkedIn Jobs \U{2B50}\U{FE0F}"
  }

  /** `EMAILS.split(",")`. */
  function Recipients(emails: string): Value {
    var parts := Split(emails, ",");
    ListV(seq(|parts|, i requires 0 <= i < |parts| => StrV(parts[i])))
  }

  function AlertEmail(emails: string, simplifyCount: nat, newCount: nat, html: string): Email {
    Email(Sender, Recipients(emails), Subject(simplifyCount, newCount), html)
  }

  // ---------------------------------------------------------------------------
  // The whole run

  /** What the outside world answers during a run: the clock, the listings
      fetch (its JSON, or the message of the exception it raised), the Apify
      call (its items, or the exception's message), and the e-mail provider
      (the message of the exception `Emails.send` raises, if it does). */
  datatype World = World(
    now: int,
    listings: Result<Value, string>,
    apify: Result<seq<Value>, string>,
    sendError: Option<string>)

  /** What the `try` block of `process_recent_jobs_background` does: its writes,
      the e-mails it sends, and either what it returns or the exception that
      leaves it. */
  datatype Outcome = Outcome(writes: seq<Write>, sent: seq<Email>, result: Result<RunResult, Exc>)

  function StartWrites(id: string): seq<Write> {
    [StatusWrite(id, "started"), ProgressWrite(id, 0)]
  }

  function ListingsFailedWrites(id: string, msg: string): seq<Write> {
    [StatusWrite(id, "failed"), ProgressWrite(id, 100), ResultWrite(id, Failed(msg))]
  }

  function FinishWrites(id: string, r: RunResult): seq<Write> {
    [ProgressWrite(id, 100), StatusWrite(id, "finished"), ResultWrite(id, r)]
  }

  /** The `except` block at lines 194-199. */
  function AbortWrites(id: string, msg: string): seq<Write> {
    [ProgressWrite(id, 100), StatusWrite(id, "failed"), ResultWrite(id, Failed(msg))]
  }

  /** Lines 118-192, against the store `s0` the run starts from. */
  function RunBody(id: string, minutes: int, world: World, s0: Store, sha256: Digester, emails: string): Outcome {
    var start := StartWrites(id);
    match world.listings
    case Err(msg) => Outcome(start + ListingsFailedWrites(id, msg), [], Ok(Failed(msg)))
    case Ok(listings) =>
      match SimplifyJobs(listings, world.now, minutes)
      case Err(e) => Outcome(start, [], Err(e))
      case Ok(simplify) =>
        var w25 := start + [ProgressWrite(id, 25)];
        match world.apify
        case Err(msg) => Outcome(w25, [], Err(Raised(msg)))
        case Ok(items) =>
          var d := DedupRun(ApplyWrites(s0, w25), items, sha256);
          var w := w25 + d.writes;
          if d.failure.Some? then Outcome(w, [], Err(d.failure.value))
          else
            var w75 := w + [ProgressWrite(id, 75)];
            match DigestHtml(simplify, d.normalized)
            case Err(e) => Outcome(w75, [], Err(e))
            case Ok(html) =>
              if world.sendError.Some? then Outcome(w75, [], Err(Raised(world.sendError.value)))
              else
                var counts := Counts(|simplify|, |d.normalized|, |d.newJobs|);
                Outcome(w75 + FinishWrites(id, counts), [AlertEmail(emails, |simplify|, |d.newJobs|, html)], Ok(counts))
  }

  /** A whole run: its writes, its e-mails and what it returns. */
  datatype Run = Run(writes: seq<Write>, sent: seq<Email>, ret: RunResult)

  /** `process_recent_jobs_background(id, minutes)`. */
  function RunSpec(id: string, minutes: int, world: World, s0: Store, sha256: Digester, emails: string): Run {
    var body := RunBody(id, minutes, world, s0, sha256, emails);
    match body.result
    case Ok(r) => Run(body.writes, body.sent, r)
    case Err(e) => Run(body.writes + AbortWrites(id, e.msg), body.sent, Failed(e.msg))
  }

  // ---------------------------------------------------------------------------
  // The runner: the store, the trace of writes to it, and the sent e-mails

  class JobRunner {
    var store: Store
    var trace: seq<Write>
    var outbox: seq<Email>
    ghost var initial: Store
    const sha256: Digester
    const emails: string

    /** The store is what the recorded writes made of the initial store. */
    ghost predicate Valid()
      reads this
    {
      store == ApplyWrites(initial, trace)
    }

    constructor(store0: Store, sha256: Digester, emails: string)
      ensures Valid()
      ensures store == store0 && trace == [] && outbox == []
      ensures this.sha256 == sha256 && this.emails == emails
    {
      store := store0;
      trace := [];
      outbox := [];
      initial := store0;
      this.sha256 := sha256;
      this.emails := emails;
    }

    /** `r.setex(key, ttl, value)`. */
    method Setex(key: string, ttl: int, value: string)
      requires Valid()
      modifies this
      ensures Valid() && initial == old(initial)
      ensures trace == old(trace) + [Write(key, ttl, value)]
      ensures store == old(store)[key := value]
      ensures outbox == old(outbox)
    {
      assert (trace + [Write(key, ttl, value)])[..|trace|] == trace;
      store := store[key := value];
      trace := trace + [Write(key, ttl, value)];
    }

    /** `r.exists(key)`. */
    method Exists(key: string) returns (b: bool)
      ensures b <==> key in store
    {
      b := key in store;
    }

    method SetStatus(id: string, value: string)
      requires Valid()
      modifies this
      ensures Valid() && initial == old(initial) && outbox == old(outbox)
      ensures trace == old(trace) + [StatusWrite(id, value)]
      ensures store == old(store)[StatusKey(id) := value]
    {
      Setex(StatusKey(id), JobTtlSeconds, value);
    }

    method SetProgress(id: string, value: int)
      requires Valid()
      modifies this
      ensures Valid() && initial == old(initial) && outbox == old(outbox)
      ensures trace == old(trace) + [ProgressWrite(id, value)]
      ensures store == old(store)[ProgressKey(id) := IntToString(value)]
    {
      Setex(ProgressKey(id), JobTtlSeconds, IntToString(value));
    }

    method SetResult(id: string, r: RunResult)
      requires Valid()
      modifies this
      ensures Valid() && initial == old(initial) && outbox == old(outbox)
      ensures trace == old(trace) + [ResultWrite(id, r)]
      ensures store == old(store)[ResultKey(id) := ResultJson(r)]
    {
      Setex(ResultKey(id), JobTtlSeconds, ResultJson(r));
    }

    /** Lines 118-119. */
    method Start(id: string)
      requires Valid()
      modifies this
      ensures Valid() && initial == old(initial) && outbox == old(outbox)
      ensures trace == old(trace) + StartWrites(id)
    {
      SetStatus(id, "started");
      SetProgress(id, 0);
      Snoc2(old(trace), StatusWrite(id, "started"), ProgressWrite(id, 0));
    }

    /** Lines 129-131: the listings could not be fetched. */
    method FailListings(id: string, msg: string)
      requires Valid()
      modifies this
      ensures Valid() && initial == old(initial) && outbox == old(outbox)
      ensures trace == old(trace) + ListingsFailedWrites(id, msg)
    {
      SetStatus(id, "failed");
      SetProgress(id, 100);
      SetResult(id, Failed(msg));
      Snoc3(old(trace), StatusWrite(id, "failed"), ProgressWrite(id, 100), ResultWrite(id, Failed(msg)));
    }

    /** Lines 188-190. */
    method Finish(id: string, counts: RunResult)
      requires Valid()
      modifies this
      ensures Valid() && initial == old(initial) && outbox == old(outbox)
      ensures trace == old(trace) + FinishWrites(id, counts)
    {
      SetProgress(id, 100);
      SetStatus(id, "finished");
      SetResult(id, counts);
      Snoc3(old(trace), ProgressWrite(id, 100), StatusWrite(id, "finished"), ResultWrite(id, counts));
    }

    /** Lines 196-198. */
    method Abort(id: string, msg: string)
      requires Valid()
      modifies this
      ensures Valid() && initial == old(initial) && outbox == old(outbox)
      ensures trace == old(trace) + AbortWrites(id, msg)
    {
      SetProgress(id, 100);
      SetStatus(id, "failed");
      SetResult(id, Failed(msg));
      Snoc3(old(trace), ProgressWrite(id, 100), StatusWrite(id, "failed"), ResultWrite(id, Failed(msg)));
    }

    /** `Emails.send(email)`: the provider either takes it or raises. */
    method Send(email: Email, sendError: Option<string>) returns (r: Result<(), Exc>)
      modifies this
      ensures sendError.None? ==> r.Ok? && outbox == old(outbox) + [email]
      ensures sendError.Some? ==> r == Err(Raised(sendError.value)) && outbox == old(outbox)
      ensures store == old(store) && trace == old(trace) && initial == old(initial)
    {
      if sendError.Some? {
        return Err(Raised(sendError.value));
      }
      outbox := outbox + [email];
      return Ok(());
    }

    /** One iteration of the loop at lines 149-163: flatten the job, and when
        its hash key is absent, count it as new and write the key. */
    method DedupJob(ghost s0: Store, normalized0: seq<Dict>, newJobs0: seq<Dict>, ghost writes0: seq<Write>, j: Value)
      returns (normalized: seq<Dict>, newJobs: seq<Dict>, failure: Option<Exc>, ghost added: seq<Write>)
      requires Valid() && store == ApplyWrites(s0, writes0)
      modifies this
      ensures Valid() && initial == old(initial) && outbox == old(outbox)
      ensures DedupStep(s0, Dedup(normalized0, newJobs0, writes0, None), j, sha256)
              == Dedup(normalized, newJobs, writes0 + added, failure)
      ensures trace == old(trace) + added && store == ApplyWrites(old(store), added)
    {
      normalized, newJobs, failure, added := normalized0, newJobs0, None, [];
      if !j.DictV? {
        failure := Some(AsDict(j).error);
        assert writes0 + added == writes0;
        return;
      }
      var norm := ApifyRecord(j.entries);
      normalized := normalized + [norm];
      var h := HashJob(norm, sha256);
      var present := Exists(h);
      if present {
        assert writes0 + added == writes0;
        return;
      }
      newJobs := newJobs + [norm];
      var v := Encode(Get(norm, "Job Url", StrV("")));
      if v.Err? {
        failure := Some(v.error);
        assert writes0 + added == writes0;
        return;
      }
      Setex(h, JobTtlSeconds, v.value);
      added := [Write(h, JobTtlSeconds, v.value)];
      assert added[..0] == [];
    }

    /** The dedup loop at lines 146-163, writing the hash keys of new jobs. */
    method DedupApifyJobs(items: seq<Value>)
      returns (normalized: seq<Dict>, newJobs: seq<Dict>, failure: Option<Exc>, ghost writes: seq<Write>)
      requires Valid()
      modifies this
      ensures Valid() && initial == old(initial)
      ensures DedupRun(old(store), items, sha256) == Dedup(normalized, newJobs, writes, failure)
      ensures trace == old(trace) + writes && store == ApplyWrites(old(store), writes)
      ensures outbox == old(outbox)
    {
      ghost var s0 := store;
      ghost var t0 := trace;
      writes := [];
      normalized, newJobs, failure := [], [], None;
      var i := 0;
      while i < |items|
        invariant 0 <= i <= |items|
        invariant Valid() && initial == old(initial) && outbox == old(outbox)
        invariant failure == None && DedupRun(s0, items[..i], sha256) == Dedup(normalized, newJobs, writes, None)
        invariant trace == t0 + writes && store == ApplyWrites(s0, writes)
      {
        DedupRunSnoc(s0, items, i, sha256);
        ghost var added;
        normalized, newJobs, failure, added := DedupJob(s0, normalized, newJobs, writes, items[i]);
        ApplyWritesAppend(s0, writes, added);
        AppendAssoc(t0, writes, added);
        writes := writes + added;
        assert DedupRun(s0, items[..i + 1], sha256) == Dedup(normalized, newJobs, writes, failure);
        if failure.Some? {
          DedupFailureSticks(s0, items, i + 1, sha256);
          assert DedupRun(s0, items, sha256) == Dedup(normalized, newJobs, writes, failure);
          return;
        }
        i := i + 1;
      }
      assert items[..i] == items;
      assert DedupRun(s0, items, sha256) == Dedup(normalized, newJobs, writes, failure);
    }

    /** The `try` block at lines 118-192. */
    method RunTry(id: string, minutes: int, world: World) returns (result: Result<RunResult, Exc>)
      requires Valid()
      modifies this
      ensures Valid() && initial == old(initial)
      ensures var body := RunBody(id, minutes, world, old(store), sha256, emails);
        && trace == old(trace) + body.writes
        && outbox == old(outbox) + body.sent
        && result == body.result
    {
      ghost var s0, t0 := store, trace;
      ghost var done: seq<Write> := [];
      Start(id);
      done := StartWrites(id);
      if world.listings.Err? {
        FailListings(id, world.listings.error);
        AppendAssoc(t0, done, ListingsFailedWrites(id, world.listings.error));
        return Ok(Failed(world.listings.error));
      }
      var simplify := SimplifyJobs(world.listings.value, world.now, minutes);
      if simplify.Err? {
        return Err(simplify.error);
      }
      SetProgress(id, 25);
      AppendAssoc(t0, done, [ProgressWrite(id, 25)]);
      done := done + [ProgressWrite(id, 25)];
      if world.apify.Err? {
        return Err(Raised(world.apify.error));
      }
      ghost var s25 := store;
      ApplyWritesAppend(initial, t0, done);
      var normalized, newJobs, failure, writes := DedupApifyJobs(world.apify.value);
      assert DedupRun(ApplyWrites(s0, done), world.apify.value, sha256) == Dedup(normalized, newJobs, writes, failure);
      AppendAssoc(t0, done, writes);
      done := done + writes;
      if failure.Some? {
        return Err(failure.value);
      }
      SetProgress(id, 75);
      AppendAssoc(t0, done, [ProgressWrite(id, 75)]);
      done := done + [ProgressWrite(id, 75)];
      var simplifyTable := GenerateHtmlTable(SimplifyTitle, simplify.value, false);
      if simplifyTable.Err? {
        return Err(simplifyTable.error);
      }
      var linkedInTable := GenerateHtmlTable(LinkedInTitle, normalized, true);
      if linkedInTable.Err? {
        return Err(linkedInTable.error);
      }
      var html := "<div style='font-family: Arial, sans-serif;'>" + simplifyTable.value + linkedInTable.value + "</div>";
      var sent := Send(AlertEmail(emails, |simplify.value|, |newJobs|, html), world.sendError);
      if sent.Err? {
        return Err(sent.error);
      }
      var counts := Counts(|simplify.value|, |normalized|, |newJobs|);
      Finish(id, counts);
      AppendAssoc(t0, done, FinishWrites(id, counts));
      return Ok(counts);
    }

    /** `process_recent_jobs_background(id, minutes)`. */
    method ProcessRecentJobsBackground(id: string, minutes: int, world: World) returns (ret: RunResult)
      requires Valid()
      modifies this
      ensures Valid() && initial == old(initial)
      ensures var run := RunSpec(id, minutes, world, old(store), sha256, emails);
        && trace == old(trace) + run.writes
        && store == ApplyWrites(old(store), run.writes)
        && outbox == old(outbox) + run.sent
        && ret == run.ret
    {
      ghost var t0 := trace;
      ghost var body := RunBody(id, minutes, world, store, sha256, emails);
      var result := RunTry(id, minutes, world);
      if result.Err? {
        Abort(id, result.error.msg);
        AppendAssoc(t0, body.writes, AbortWrites(id, result.error.msg));
        ret := Failed(result.error.msg);
      } else {
        ret := result.value;
      }
      ApplyWritesAppend(initial, t0, trace[|t0|..]);
      assert t0 + trace[|t0|..] == trace;
    }
  }

  lemma DedupRunSnoc(s0: Store, jobs: seq<Value>, i: nat, sha256: Digester)
    requires i < |jobs|
    ensures DedupRun(s0, jobs[..i + 1], sha256) == DedupStep(s0, DedupRun(s0, jobs[..i], sha256), jobs[i], sha256)
  {
    assert jobs[..i + 1][..i] == jobs[..i];
  }

  /** Once an iteration has raised, later iterations change nothing. */
  lemma {:induction false} DedupFailureSticks(s0: Store, jobs: seq<Value>, k: nat, sha256: Digester)
    requires k <= |jobs| && DedupRun(s0, jobs[..k], sha256).failure.Some?
    ensures DedupRun(s0, jobs, sha256) == DedupRun(s0, jobs[..k], sha256)
    decreases |jobs|
  {
    if k < |jobs| {
      var init := jobs[..|jobs| - 1];
      assert init[..k] == jobs[..k];
      DedupFailureSticks(s0, init, k, sha256);
    } else {
      assert jobs[..k] == jobs;
    }
  }
}
