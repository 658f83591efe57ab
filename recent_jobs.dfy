/** The `/recent_jobs` endpoint of main.py: fetch the Simplify listings, keep
    the active, visible listings posted since the cutoff, e-mail them when
    there are any, and return them. An exception the endpoint does not catch
    reaches the web framework, which answers it with status 500. */
module RecentJobs {
  import opened Wrappers
  import opened PyValue
  import opened Clock
  import opened Mail
  import opened Sequences
  import opened Configs

  /** The listings request: the message of the `requests` exception, a body
      that is not JSON, or the parsed JSON. */
  datatype Fetch = FetchFailed(msg: string) | NotJson | Fetched(body: Value)

  /** The endpoint's answer: the kept listings, an `HTTPException`, or an
      exception left uncaught. */
  datatype Response =
    | Jobs(jobs: seq<Value>)
    | HttpError(status: int, detail: string)
    | Unhandled(error: Exc)

  /** The answer and the e-mails handed to the provider. */
  datatype Reply = Reply(response: Response, sent: seq<Email>)

  /** Lines 47-56 for a listing that passed the flag test: a `date_posted` that
      is present, not None, converts with `int()` and lies in the datetime range,
      at or after the cutoff. Every failure here skips the listing. */
  predicate PostedSince(ts: Value, cutoff: int) {
    match ts
    case NoneV => false
    case _ =>
      match ToInt(ts)
      case Err(_) => false
      case Ok(n) =>
        match TimestampToDatetime(n)
        case Err(_) => false
        case Ok(posted) => posted >= cutoff
  }

  /** Whether the loop keeps `job`. Only a listing that is not a dict raises:
      its first `get` is an attribute error. */
  function Keeps(job: Value, cutoff: int): (r: Result<bool, Exc>)
    ensures r.Ok? <==> job.DictV?
  {
    match AsDict(job)
    case Err(e) => Err(e)
    case Ok(d) =>
      Ok(Truthy(Get(d, "active", BoolV(false)))
         && Truthy(Get(d, "is_visible", BoolV(true)))
         && PostedSince(Get(d, "date_posted", NoneV), cutoff))
  }

  /** The loop of lines 42-57 over `items`; the first listing that raises ends it. */
  function KeptListings(items: seq<Value>, cutoff: int): Result<seq<Value>, Exc>
    decreases |items|
  {
    if items == [] then Ok([])
    else
      match KeptListings(items[..|items| - 1], cutoff)
      case Err(e) => Err(e)
      case Ok(done) =>
        match Keeps(items[|items| - 1], cutoff)
        case Err(e) => Err(e)
        case Ok(keep) => Ok(if keep then done + [items[|items| - 1]] else done)
  }

  /** `get_recent_jobs(minutes)`, given the fetch, the clock, the local-date
      formatter of the e-mail table, the `EMAILS` setting and the exception
      the e-mail provider raises, if any. */
  function RecentJobsSpec(minutes: int, fetch: Fetch, now: int, localDate: DateFormatter,
                          emails: string, sendError: Option<string>): Reply
  {
    match fetch
    case FetchFailed(msg) => Reply(HttpError(503, "Failed to fetch listings.json: " + msg), [])
    case NotJson => Reply(HttpError(500, "Invalid JSON format from listings.json"), [])
    case Fetched(body) =>
      match ListingsSince(body, now, minutes)
      case Err(e) => Reply(Unhandled(e), [])
      case Ok(recent) =>
        if recent == [] then Reply(Jobs([]), [])
        else
          match AlertFor(recent, emails, localDate)
          case Err(e) => Reply(Unhandled(e), [])
          case Ok(email) =>
            if sendError.Some? then Reply(Unhandled(Raised(sendError.value)), [])
            else Reply(Jobs(recent), [email])
  }

  /** Lines 37-57: the cutoff, then the loop over the parsed listings. */
  function ListingsSince(body: Value, now: int, minutes: int): Result<seq<Value>, Exc> {
    match Cutoff(now, minutes)
    case Err(e) => Err(e)
    case Ok(cutoff) =>
      match Iterate(body)
      case Err(e) => Err(e)
      case Ok(items) => KeptListings(items, cutoff)
  }

  lemma KeptSnoc(items: seq<Value>, i: nat, cutoff: int)
    requires i < |items| && KeptListings(items[..i], cutoff).Ok?
    ensures KeptListings(items[..i + 1], cutoff) ==
      match Keeps(items[i], cutoff)
      case Err(e) => Err(e)
      case Ok(keep) =>
        var done := KeptListings(items[..i], cutoff).value;
        Ok(if keep then done + [items[i]] else done)
  {
    assert items[..i + 1][..i] == items[..i];
  }

  lemma {:induction false} KeptFailureSticks(items: seq<Value>, k: nat, cutoff: int)
    requires k <= |items| && KeptListings(items[..k], cutoff).Err?
    ensures KeptListings(items, cutoff) == KeptListings(items[..k], cutoff)
    decreases |items| - k
  {
    if k < |items| {
      assert items[..k + 1][..k] == items[..k];
      KeptFailureSticks(items, k + 1, cutoff);
    } else {
      assert items[..k] == items;
    }
  }

  /** `get_recent_jobs` as written: the loop appends each listing it keeps
      and `continue`s past the others; a non-empty result is e-mailed. */
  method GetRecentJobs(minutes: int, fetch: Fetch, now: int, localDate: DateFormatter,
                       emails: string, sendError: Option<string>)
    returns (response: Response, sent: seq<Email>)
    ensures Reply(response, sent) == RecentJobsSpec(minutes, fetch, now, localDate, emails, sendError)
  {
    sent := [];
    if fetch.FetchFailed? {
      return HttpError(503, "Failed to fetch listings.json: " + fetch.msg), sent;
    }
    if fetch.NotJson? {
      return HttpError(500, "Invalid JSON format from listings.json"), sent;
    }
    var cutoff := Cutoff(now, minutes);
    if cutoff.Err? {
      return Unhandled(cutoff.error), sent;
    }
    var listings := Iterate(fetch.body);
    if listings.Err? {
      return Unhandled(listings.error), sent;
    }
    var items := listings.value;
    var recent: seq<Value> := [];
    var i := 0;
    while i < |items|
      invariant 0 <= i <= |items|
      invariant KeptListings(items[..i], cutoff.value) == Ok(recent)
    {
      var job := items[i];
      KeptSnoc(items, i, cutoff.value);
      if !job.DictV? {
        KeptFailureSticks(items, i + 1, cutoff.value);
        return Unhandled(AsDict(job).error), sent;
      }
      var d := job.entries;
      i := i + 1;
      if !Truthy(Get(d, "active", BoolV(false))) || !Truthy(Get(d, "is_visible", BoolV(true))) {
        continue;
      }
      var ts := Get(d, "date_posted", NoneV);
      if ts == NoneV {
        continue;
      }
      var n := ToInt(ts);
      if n.Err? {
        continue;
      }
      var posted := TimestampToDatetime(n.value);
      if posted.Err? {
        continue;
      }
      if posted.value >= cutoff.value {
        recent := recent + [job];
      }
    }
    assert items[..i] == items;
    if recent == [] {
      return Jobs(recent), sent;
    }
    var html := FormatJobsHtmlTable(recent, localDate);
    if html.Err? {
      return Unhandled(html.error), sent;
    }
    if sendError.Some? {
      return Unhandled(Raised(sendError.value)), sent;
    }
    sent := [Email(Sender, StrV(emails), Subject(|recent|), html.value)];
    return Jobs(recent), sent;
  }

  // ---------------------------------------------------------------------------
  // Properties

  /** The flags of the loop's keep test, one per listing. */
  function KeepMask(items: seq<Value>, cutoff: int): (mask: seq<bool>)
    requires forall i :: 0 <= i < |items| ==> items[i].DictV?
    ensures |mask| == |items|
  {
    seq(|items|, i requires 0 <= i < |items| => Keeps(items[i], cutoff).value)
  }

  /** The loop raises exactly when some listing is not a dict; otherwise it
      returns the listings whose flag is set, unmodified and in their order. */
  lemma {:induction false} KeptIsSelection(items: seq<Value>, cutoff: int)
    ensures KeptListings(items, cutoff).Ok? <==> forall i :: 0 <= i < |items| ==> items[i].DictV?
    ensures KeptListings(items, cutoff).Ok? ==>
      KeptListings(items, cutoff).value == Select(items, KeepMask(items, cutoff))
    decreases |items|
  {
    if items != [] {
      var n := |items| - 1;
      var init := items[..n];
      KeptIsSelection(init, cutoff);
      assert forall i :: 0 <= i < n ==> init[i] == items[i];
      if forall i :: 0 <= i < |items| ==> items[i].DictV? {
        assert items == init + [items[n]];
        KeptSelectionStep(init, items[n], cutoff);
      } else if forall i :: 0 <= i < n ==> init[i].DictV? {
        var i :| 0 <= i < |items| && !items[i].DictV?;
        assert i == n;
      }
    }
  }

  /** One more dict listing extends the selection by its own flag. */
  lemma KeptSelectionStep(init: seq<Value>, job: Value, cutoff: int)
    requires job.DictV? && forall i :: 0 <= i < |init| ==> init[i].DictV?
    requires KeptListings(init, cutoff).Ok?
    requires KeptListings(init, cutoff).value == Select(init, KeepMask(init, cutoff))
    ensures KeptListings(init + [job], cutoff).Ok?
    ensures KeptListings(init + [job], cutoff).value == Select(init + [job], KeepMask(init + [job], cutoff))
  {
    var items := init + [job];
    var n := |init|;
    assert items[..n] == init;
    var mask := KeepMask(items, cutoff);
    assert KeepMask(init, cutoff) == mask[..n];
    assert mask == mask[..n] + [mask[n]];
    SelectSnoc(init, mask[..n], job, mask[n]);
  }

  /** Every listing the loop keeps passed the keep test. */
  lemma KeptPassed(items: seq<Value>, cutoff: int)
    requires KeptListings(items, cutoff).Ok?
    ensures forall y :: y in KeptListings(items, cutoff).value ==> Keeps(y, cutoff) == Ok(true)
  {
    KeptIsSelection(items, cutoff);
    SelectMembers(items, KeepMask(items, cutoff));
  }

  /** A listing is kept iff it is a dict whose `active` is truthy (absent
      counts as False), whose `is_visible` is truthy (absent counts as True),
      and whose `date_posted` is present, not None, converts with `int()` to a
      timestamp in the datetime range, and lies at or after the cutoff. */
  lemma KeepsMeaning(job: Value, cutoff: int)
    ensures Keeps(job, cutoff) == Ok(true) <==>
      && job.DictV?
      && Truthy(Get(job.entries, "active", BoolV(false)))
      && Truthy(Get(job.entries, "is_visible", BoolV(true)))
      && Get(job.entries, "date_posted", NoneV) != NoneV
      && ToInt(Get(job.entries, "date_posted", NoneV)).Ok?
      && var ts := ToInt(Get(job.entries, "date_posted", NoneV)).value;
      && MinTimestamp <= ts <= MaxTimestamp
      && ts * MicrosPerSecond >= cutoff
  {
  }

  /** A failed fetch is a 503 and a body that is not JSON a 500; no other
      path answers with an `HTTPException`. */
  lemma RecentJobsHttpErrors(minutes: int, fetch: Fetch, now: int, localDate: DateFormatter,
                             emails: string, sendError: Option<string>)
    ensures var reply := RecentJobsSpec(minutes, fetch, now, localDate, emails, sendError);
      && (reply.response.HttpError? <==> !fetch.Fetched?)
      && (fetch.FetchFailed? ==> reply.response.status == 503)
      && (fetch.NotJson? ==> reply.response.status == 500)
  {
  }

  /** The listings kept are an order-preserving selection of the parsed
      listings, each one kept by the test of lines 44-56; the loop raises only
      when some listing is not a dict. */
  lemma ListingsSinceSelection(body: Value, now: int, minutes: int)
    requires Cutoff(now, minutes).Ok? && Iterate(body).Ok?
    ensures var items := Iterate(body).value;
      var cutoff := now - minutes * MicrosPerMinute;
      && (ListingsSince(body, now, minutes).Ok? <==> forall i :: 0 <= i < |items| ==> items[i].DictV?)
      && (ListingsSince(body, now, minutes).Ok? ==>
            && ListingsSince(body, now, minutes).value == Select(items, KeepMask(items, cutoff))
            && forall y :: y in ListingsSince(body, now, minutes).value ==> Keeps(y, cutoff) == Ok(true))
  {
    var items := Iterate(body).value;
    var cutoff := Cutoff(now, minutes).value;
    KeptIsSelection(items, cutoff);
    if KeptListings(items, cutoff).Ok? {
      KeptPassed(items, cutoff);
    }
  }

  /** The endpoint answers with a list only when the fetch succeeded and the
      loop ran to its end, and then it answers with the loop's selection. */
  lemma RecentJobsSelection(minutes: int, fetch: Fetch, now: int, localDate: DateFormatter,
                            emails: string, sendError: Option<string>)
    ensures var reply := RecentJobsSpec(minutes, fetch, now, localDate, emails, sendError);
      reply.response.Jobs? ==>
        fetch.Fetched? && ListingsSince(fetch.body, now, minutes) == Ok(reply.response.jobs)
  {
  }

  /** The alert goes out exactly when the returned list is non-empty, and
      it carries exactly that list. */
  lemma RecentJobsAlert(minutes: int, fetch: Fetch, now: int, localDate: DateFormatter,
                        emails: string, sendError: Option<string>)
    ensures var reply := RecentJobsSpec(minutes, fetch, now, localDate, emails, sendError);
      && (reply.sent != [] <==> reply.response.Jobs? && reply.response.jobs != [])
      && (reply.sent != [] ==>
            reply.sent == [Email(Sender, StrV(emails), Subject(|reply.response.jobs|),
                                 JobsTable(reply.response.jobs, localDate).value)])
  {
  }
}
