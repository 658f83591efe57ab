/** What a background run promises about the Simplify listings: which
    listings the recency filter of shared/tasks.py keeps, and the flat record
    `normalize_simplify_jobs` makes of each. */
module ListingProperties {
  import opened Wrappers
  import opened PyValue
  import opened Clock
  import opened Sequences
  import opened Tasks
  import opened Text

  // ---------------------------------------------------------------------------
  // Comprehensions whose expression may raise, over any per-item function

  /** `[f(x) for x in xs]` when `f` may raise: the first raise ends it. */
  function MapOrRaise<T, U, E>(xs: seq<T>, f: T -> Result<U, E>): Result<seq<U>, E>
    decreases |xs|
  {
    if xs == [] then Ok([])
    else
      var done :- MapOrRaise(xs[..|xs| - 1], f);
      var y :- f(xs[|xs| - 1]);
      Ok(done + [y])
  }

  /** `[x for x in xs if keep(x)]` when `keep` may raise. */
  function FilterOrRaise<T, E>(xs: seq<T>, keep: T -> Result<bool, E>): Result<seq<T>, E>
    decreases |xs|
  {
    if xs == [] then Ok([])
    else
      var done :- FilterOrRaise(xs[..|xs| - 1], keep);
      var k :- keep(xs[|xs| - 1]);
      Ok(if k then done + [xs[|xs| - 1]] else done)
  }

  /** The verdicts of `keep`, when none raises. */
  function Verdicts<T, E>(xs: seq<T>, keep: T -> Result<bool, E>): (mask: seq<bool>)
    requires forall i :: 0 <= i < |xs| ==> keep(xs[i]).Ok?
    ensures |mask| == |xs|
  {
    seq(|xs|, i requires 0 <= i < |xs| => keep(xs[i]).value)
  }

  lemma {:induction false} MapOrRaiseRaises<T, U, E>(xs: seq<T>, f: T -> Result<U, E>)
    ensures MapOrRaise(xs, f).Ok? <==> forall i :: 0 <= i < |xs| ==> f(xs[i]).Ok?
    decreases |xs|
  {
    if xs != [] {
      var n := |xs| - 1;
      MapOrRaiseRaises(xs[..n], f);
      assert forall i :: 0 <= i < n ==> xs[..n][i] == xs[i];
    }
  }

  lemma {:induction false} MapOrRaiseElements<T, U, E>(xs: seq<T>, f: T -> Result<U, E>)
    requires forall i :: 0 <= i < |xs| ==> f(xs[i]).Ok?
    ensures MapOrRaise(xs, f).Ok? && |MapOrRaise(xs, f).value| == |xs|
    ensures forall i :: 0 <= i < |xs| ==> MapOrRaise(xs, f).value[i] == f(xs[i]).value
    decreases |xs|
  {
    if xs != [] {
      var n := |xs| - 1;
      assert forall i :: 0 <= i < n ==> xs[..n][i] == xs[i];
      MapOrRaiseElements(xs[..n], f);
    }
  }

  lemma {:induction false} FilterOrRaiseRaises<T, E>(xs: seq<T>, keep: T -> Result<bool, E>)
    ensures FilterOrRaise(xs, keep).Ok? <==> forall i :: 0 <= i < |xs| ==> keep(xs[i]).Ok?
    decreases |xs|
  {
    if xs != [] {
      var n := |xs| - 1;
      FilterOrRaiseRaises(xs[..n], keep);
      assert forall i :: 0 <= i < n ==> xs[..n][i] == xs[i];
    }
  }

  lemma {:induction false} FilterOrRaiseSelects<T, E>(xs: seq<T>, keep: T -> Result<bool, E>)
    requires forall i :: 0 <= i < |xs| ==> keep(xs[i]).Ok?
    ensures FilterOrRaise(xs, keep) == Ok(Select(xs, Verdicts(xs, keep)))
    decreases |xs|
  {
    if xs != [] {
      var n := |xs| - 1;
      var init := xs[..n];
      assert forall i :: 0 <= i < n ==> init[i] == xs[i];
      FilterOrRaiseSelects(init, keep);
      assert xs == init + [xs[n]];
      FilterOrRaiseSelectStep(init, xs[n], keep);
    }
  }

  /** One more element whose verdict is known extends the selection by it. */
  lemma FilterOrRaiseSelectStep<T, E>(init: seq<T>, x: T, keep: T -> Result<bool, E>)
    requires keep(x).Ok? && forall i :: 0 <= i < |init| ==> keep(init[i]).Ok?
    requires FilterOrRaise(init, keep) == Ok(Select(init, Verdicts(init, keep)))
    ensures FilterOrRaise(init + [x], keep) == Ok(Select(init + [x], Verdicts(init + [x], keep)))
  {
    var v := keep(x).value;
    VerdictsSnoc(init, x, keep);
    FilterOrRaiseSnoc(init, x, keep);
    SelectSnoc(init, Verdicts(init, keep), x, v);
    var sel := Select(init, Verdicts(init, keep));
    if !v {
      assert sel + [] == sel;
    }
  }

  lemma VerdictsSnoc<T, E>(init: seq<T>, x: T, keep: T -> Result<bool, E>)
    requires keep(x).Ok? && forall i :: 0 <= i < |init| ==> keep(init[i]).Ok?
    ensures Verdicts(init + [x], keep) == Verdicts(init, keep) + [keep(x).value]
  {
    var xs := init + [x];
    assert forall i :: 0 <= i < |init| ==> xs[i] == init[i];
  }

  lemma FilterOrRaiseSnoc<T, E>(init: seq<T>, x: T, keep: T -> Result<bool, E>)
    requires keep(x).Ok? && FilterOrRaise(init, keep).Ok?
    ensures var done := FilterOrRaise(init, keep).value;
      FilterOrRaise(init + [x], keep) == Ok(if keep(x).value then done + [x] else done)
  {
    assert (init + [x])[..|init|] == init;
  }

  // ---------------------------------------------------------------------------
  // The recency filter

  lemma {:induction false} FilterRecentIsComprehension(items: seq<Value>, cutoff: int)
    ensures FilterRecent(items, cutoff) == FilterOrRaise(items, j => IsRecent(j, cutoff))
    decreases |items|
  {
    if items != [] {
      FilterRecentIsComprehension(items[..|items| - 1], cutoff);
    }
  }

  /** The filter raises exactly when its condition raises on some listing;
      otherwise it keeps the listings whose condition holds, unmodified and
      in their order. */
  lemma FilterRecentSelects(items: seq<Value>, cutoff: int)
    ensures FilterRecent(items, cutoff).Ok? <==> forall i :: 0 <= i < |items| ==> IsRecent(items[i], cutoff).Ok?
    ensures FilterRecent(items, cutoff).Ok? ==>
      FilterRecent(items, cutoff).value == Select(items, seq(|items|, i requires 0 <= i < |items| => IsRecent(items[i], cutoff).value))
  {
    var keep := j => IsRecent(j, cutoff);
    FilterRecentIsComprehension(items, cutoff);
    FilterOrRaiseRaises(items, keep);
    if FilterRecent(items, cutoff).Ok? {
      FilterOrRaiseSelects(items, keep);
      assert Verdicts(items, keep) == seq(|items|, i requires 0 <= i < |items| => IsRecent(items[i], cutoff).value);
    }
  }

  /** A listing is kept iff `active` is truthy (absent counts as False),
      `is_visible` is truthy (absent counts as True), and `date_posted`
      (absent counts as 0) converts to a time at or after the cutoff; it
      raises when it is not a dict or its `date_posted` does not convert. */
  lemma IsRecentMeaning(job: Value, cutoff: int)
    ensures IsRecent(job, cutoff) == Ok(true) <==>
      && job.DictV?
      && Truthy(Get(job.entries, "active", BoolV(false)))
      && Truthy(Get(job.entries, "is_visible", BoolV(true)))
      && ToInt(Get(job.entries, "date_posted", IntV(0))).Ok?
      && var ts := ToInt(Get(job.entries, "date_posted", IntV(0))).value;
      && MinTimestamp <= ts <= MaxTimestamp
      && ts * MicrosPerSecond >= cutoff
    ensures job.DictV? && Truthy(Get(job.entries, "active", BoolV(false)))
            && Truthy(Get(job.entries, "is_visible", BoolV(true)))
            && ToInt(Get(job.entries, "date_posted", IntV(0))).Err?
            ==> IsRecent(job, cutoff).Err?
  {
  }

  // ---------------------------------------------------------------------------
  // normalize_simplify_jobs

  lemma {:induction false} NormalizeSimplifyIsComprehension(jobs: seq<Value>)
    ensures NormalizeSimplify(jobs) == MapOrRaise(jobs, SimplifyRecord)
    decreases |jobs|
  {
    if jobs != [] {
      NormalizeSimplifyIsComprehension(jobs[..|jobs| - 1]);
    }
  }

  /** Normalising raises exactly when some listing's record cannot be built;
      otherwise it gives exactly one record per listing, in input order. */
  lemma NormalizeSimplifyOnePerJob(jobs: seq<Value>)
    ensures NormalizeSimplify(jobs).Ok? <==> forall i :: 0 <= i < |jobs| ==> SimplifyRecord(jobs[i]).Ok?
    ensures NormalizeSimplify(jobs).Ok? ==>
      && |NormalizeSimplify(jobs).value| == |jobs|
      && forall i :: 0 <= i < |jobs| ==> NormalizeSimplify(jobs).value[i] == SimplifyRecord(jobs[i]).value
  {
    NormalizeSimplifyIsComprehension(jobs);
    MapOrRaiseRaises(jobs, SimplifyRecord);
    if NormalizeSimplify(jobs).Ok? {
      MapOrRaiseElements(jobs, SimplifyRecord);
    }
  }

  /** The record of one listing has the seven keys in order; `title` and
      `sponsorship` are copied (None when absent), and `company_name` falls
      back to `companyName` and `url` to `jobUrl` when the first is falsy. */
  lemma SimplifyRecordCopies(job: Value)
    requires SimplifyRecord(job).Ok?
    ensures job.DictV?
    ensures var d, rec := job.entries, SimplifyRecord(job).value;
      && Keys(rec) == RecordKeys
      && Get(rec, "title", NoneV) == Get(d, "title", NoneV)
      && Get(rec, "company_name", NoneV) ==
           (if Truthy(Get(d, "company_name", NoneV)) then Get(d, "company_name", NoneV) else Get(d, "companyName", NoneV))
      && Get(rec, "url", NoneV) ==
           (if Truthy(Get(d, "url", NoneV)) then Get(d, "url", NoneV) else Get(d, "jobUrl", NoneV))
      && Get(rec, "sponsorship", NoneV) == Get(d, "sponsorship", NoneV)
  {
    RecordShape(job);
    RecordFields(job);
  }

  /** `terms`, `locations` and `degrees` are "" when the listing does not
      have them. */
  lemma SimplifyRecordJoins(job: Value)
    requires SimplifyRecord(job).Ok?
    ensures job.DictV?
    ensures var d, rec := job.entries, SimplifyRecord(job).value;
      && ("terms" !in Keys(d) ==> Get(rec, "terms", NoneV) == StrV(""))
      && ("locations" !in Keys(d) ==> Get(rec, "locations", NoneV) == StrV(""))
      && ("degrees" !in Keys(d) ==> Get(rec, "degrees", NoneV) == StrV(""))
  {
    JoinedFieldOfRecord(job, "terms");
    JoinedFieldOfRecord(job, "locations");
    JoinedFieldOfRecord(job, "degrees");
  }

  /** The fields of a listing that a normalised record joins with ", ". */
  const JoinedKeys: seq<string> := ["terms", "locations", "degrees"]

  /** A joined field that holds a list of strings becomes those strings
      joined with ", " (an absent field counts as the empty list). */
  lemma SimplifyRecordJoinsStrings(job: Value, k: string, strs: seq<string>)
    requires SimplifyRecord(job).Ok?
    requires job.DictV? && k in JoinedKeys
    requires Get(job.entries, k, ListV([])).ListV?
    requires var items := Get(job.entries, k, ListV([])).items;
      |items| == |strs| && forall i :: 0 <= i < |items| ==> items[i] == StrV(strs[i])
    ensures Get(SimplifyRecord(job).value, k, NoneV) == StrV(Join(strs, ", "))
  {
    var items := Get(job.entries, k, ListV([])).items;
    JoinedFieldOfRecord(job, k);
    assert AsStrings(items, 0).value == strs;
  }

  /** The joined field `k` of the record holds `", ".join` of the listing's
      field `k`. */
  lemma JoinedFieldOfRecord(job: Value, k: string)
    requires SimplifyRecord(job).Ok?
    requires job.DictV? && k in JoinedKeys
    ensures JoinValue(", ", Get(job.entries, k, ListV([]))).Ok?
    ensures Get(SimplifyRecord(job).value, k, NoneV) == StrV(JoinValue(", ", Get(job.entries, k, ListV([]))).value)
  {
    RecordShape(job);
    RecordFields(job);
  }

  /** The normalised record of a listing, entry by entry. */
  lemma RecordShape(job: Value)
    requires SimplifyRecord(job).Ok?
    ensures job.DictV?
    ensures var d := job.entries;
      var terms := JoinValue(", ", Get(d, "terms", ListV([])));
      var locations := JoinValue(", ", Get(d, "locations", ListV([])));
      var degrees := JoinValue(", ", Get(d, "degrees", ListV([])));
      && terms.Ok? && locations.Ok? && degrees.Ok?
      && SimplifyRecord(job).value ==
           Record(Get(d, "title", NoneV), Or(Get(d, "company_name", NoneV), Get(d, "companyName", NoneV)),
                  StrV(terms.value), Or(Get(d, "url", NoneV), Get(d, "jobUrl", NoneV)),
                  StrV(locations.value), Get(d, "sponsorship", NoneV), StrV(degrees.value))
  {
    var d := job.entries;
    assert AsDict(job) == Ok(d);
    var terms := JoinValue(", ", Get(d, "terms", ListV([])));
    assert terms.Ok?;
    var locations := JoinValue(", ", Get(d, "locations", ListV([])));
    assert locations.Ok?;
    var degrees := JoinValue(", ", Get(d, "degrees", ListV([])));
    assert degrees.Ok?;
  }

  /** The seven fields of `SimplifyRecord(job)` as `Get` finds them. */
  lemma RecordFields(job: Value)
    requires SimplifyRecord(job).Ok?
    ensures job.DictV?
    ensures var d, rec := job.entries, SimplifyRecord(job).value;
      && Keys(rec) == RecordKeys
      && Get(rec, "title", NoneV) == Get(d, "title", NoneV)
      && Get(rec, "company_name", NoneV) == Or(Get(d, "company_name", NoneV), Get(d, "companyName", NoneV))
      && Get(rec, "terms", NoneV) == StrV(JoinValue(", ", Get(d, "terms", ListV([]))).value)
      && Get(rec, "url", NoneV) == Or(Get(d, "url", NoneV), Get(d, "jobUrl", NoneV))
      && Get(rec, "locations", NoneV) == StrV(JoinValue(", ", Get(d, "locations", ListV([]))).value)
      && Get(rec, "sponsorship", NoneV) == Get(d, "sponsorship", NoneV)
      && Get(rec, "degrees", NoneV) == StrV(JoinValue(", ", Get(d, "degrees", ListV([]))).value)
  {
    RecordShape(job);
    var d := job.entries;
    GetOfRecord(Get(d, "title", NoneV), Or(Get(d, "company_name", NoneV), Get(d, "companyName", NoneV)),
                StrV(JoinValue(", ", Get(d, "terms", ListV([]))).value), Or(Get(d, "url", NoneV), Get(d, "jobUrl", NoneV)),
                StrV(JoinValue(", ", Get(d, "locations", ListV([]))).value), Get(d, "sponsorship", NoneV),
                StrV(JoinValue(", ", Get(d, "degrees", ListV([]))).value));
  }

  /** A dict with the seven keys of a normalised record, in order. */
  function Record(title: Value, company: Value, terms: Value, url: Value, locations: Value,
                  sponsorship: Value, degrees: Value): Dict
  {
    [("title", title), ("company_name", company), ("terms", terms), ("url", url),
     ("locations", locations), ("sponsorship", sponsorship), ("degrees", degrees)]
  }

  lemma GetOfRecord(title: Value, company: Value, terms: Value, url: Value, locations: Value,
                    sponsorship: Value, degrees: Value)
    ensures var rec := Record(title, company, terms, url, locations, sponsorship, degrees);
      && Keys(rec) == RecordKeys
      && Get(rec, "title", NoneV) == title && Get(rec, "company_name", NoneV) == company
      && Get(rec, "terms", NoneV) == terms && Get(rec, "url", NoneV) == url
      && Get(rec, "locations", NoneV) == locations && Get(rec, "sponsorship", NoneV) == sponsorship
      && Get(rec, "degrees", NoneV) == degrees
  {
    var rec := Record(title, company, terms, url, locations, sponsorship, degrees);
    FieldsOfRecord(rec);
    assert Get(rec, RecordKeys[0], NoneV) == rec[0].1 && Get(rec, RecordKeys[1], NoneV) == rec[1].1;
    assert Get(rec, RecordKeys[2], NoneV) == rec[2].1 && Get(rec, RecordKeys[3], NoneV) == rec[3].1;
    assert Get(rec, RecordKeys[4], NoneV) == rec[4].1 && Get(rec, RecordKeys[5], NoneV) == rec[5].1;
    assert Get(rec, RecordKeys[6], NoneV) == rec[6].1;
  }

  /** A joined field that is a list holding something other than a string
      makes the whole record raise TypeError. */
  lemma SimplifyRecordRejectsNonString(job: Value, k: string, i: nat)
    requires job.DictV? && k in JoinedKeys
    requires Get(job.entries, k, ListV([])).ListV?
    requires i < |Get(job.entries, k, ListV([])).items|
    requires !Get(job.entries, k, ListV([])).items[i].StrV?
    ensures SimplifyRecord(job).Err? && SimplifyRecord(job).error.TypeError?
  {
    JoinValueOfList(", ", Get(job.entries, k, ListV([])));
  }

  /** The keys of a normalised record, in the order they are written. */
  const RecordKeys: seq<string> := ["title", "company_name", "terms", "url", "locations", "sponsorship", "degrees"]

  lemma RecordKeysDistinct()
    ensures forall i, j :: 0 <= i < j < |RecordKeys| ==> RecordKeys[i] != RecordKeys[j]
  {
  }

  /** Each of the seven fields of a normalised record is found where it was
      written. */
  lemma FieldsOfRecord(rec: Dict)
    requires Keys(rec) == RecordKeys
    ensures forall i :: 0 <= i < |RecordKeys| ==> Get(rec, RecordKeys[i], NoneV) == rec[i].1
  {
    RecordKeysDistinct();
    forall i | 0 <= i < |RecordKeys|
      ensures Get(rec, RecordKeys[i], NoneV) == rec[i].1
    {
      GetAt(rec, i, NoneV);
    }
  }
}
