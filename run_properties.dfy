/** What one call of `process_recent_jobs_background` records under its own
    keys, what it leaves in the store, and what it e-mails. */
module RunProperties {
  import opened Wrappers
  import opened Text
  import opened PyValue
  import opened KeyValueStore
  import opened Mail
  import opened Fingerprint
  import opened Sequences
  import opened Tasks
  import opened TaskProperties

  // ---------------------------------------------------------------------------
  // The run's own keys

  /** `status:{id}`, `progress:{id}` and `result:{id}` are three different keys,
      and each holds a ':', which no fingerprint does. */
  lemma RunKeys(id: string)
    ensures StatusKey(id) != ProgressKey(id) && StatusKey(id) != ResultKey(id) && ProgressKey(id) != ResultKey(id)
    ensures ':' in StatusKey(id) && ':' in ProgressKey(id) && ':' in ResultKey(id)
  {
    assert StatusKey(id)[0] == 's' && ProgressKey(id)[0] == 'p' && ResultKey(id)[0] == 'r';
    assert StatusKey(id)[6] == ':' && ProgressKey(id)[8] == ':' && ResultKey(id)[6] == ':';
  }

  lemma ProgressStrings()
    ensures IntToString(0) == "0" && IntToString(25) == "25"
    ensures IntToString(75) == "75" && IntToString(100) == "100"
  {
    assert NatToString(2) == "2" && NatToString(7) == "7";
    assert NatToString(10) == NatToString(1) + "0";
  }

  /** The values a list of writes gives the run's three keys. */
  datatype Records = Records(progress: seq<string>, status: seq<string>, result: seq<string>)

  function RecordsOf(ws: seq<Write>, id: string): Records {
    Records(KeyValues(ws, ProgressKey(id)), KeyValues(ws, StatusKey(id)), KeyValues(ws, ResultKey(id)))
  }

  function Append(a: Records, b: Records): Records {
    Records(a.progress + b.progress, a.status + b.status, a.result + b.result)
  }

  const NoRecords := Records([], [], [])

  lemma RecordsAppend(a: seq<Write>, b: seq<Write>, id: string)
    ensures RecordsOf(a + b, id) == Append(RecordsOf(a, id), RecordsOf(b, id))
  {
    KeyValuesAppend(a, b, ProgressKey(id));
    KeyValuesAppend(a, b, StatusKey(id));
    KeyValuesAppend(a, b, ResultKey(id));
  }

  lemma RecordsOfOne(w: Write, id: string)
    ensures RecordsOf([w], id) == Records(
      if w.key == ProgressKey(id) then [w.value] else [],
      if w.key == StatusKey(id) then [w.value] else [],
      if w.key == ResultKey(id) then [w.value] else [])
  {
    assert [w][..0] == [];
  }

  lemma RecordsOfThree(a: Write, b: Write, c: Write, id: string)
    ensures RecordsOf([a, b, c], id) == Append(Append(RecordsOf([a], id), RecordsOf([b], id)), RecordsOf([c], id))
  {
    RecordsAppend([a], [b], id);
    RecordsAppend([a, b], [c], id);
    assert [a] + [b] == [a, b];
    assert [a, b] + [c] == [a, b, c];
  }

  lemma StartRecords(id: string)
    ensures RecordsOf(StartWrites(id), id) == Records(["0"], ["started"], [])
  {
    RunKeys(id);
    ProgressStrings();
    RecordsAppend([StatusWrite(id, "started")], [ProgressWrite(id, 0)], id);
    assert [StatusWrite(id, "started")] + [ProgressWrite(id, 0)] == StartWrites(id);
    RecordsOfOne(StatusWrite(id, "started"), id);
    RecordsOfOne(ProgressWrite(id, 0), id);
  }

  lemma ProgressRecords(id: string, v: int)
    ensures RecordsOf([ProgressWrite(id, v)], id) == Records([IntToString(v)], [], [])
  {
    RunKeys(id);
    RecordsOfOne(ProgressWrite(id, v), id);
  }

  lemma ListingsFailedRecords(id: string, msg: string)
    ensures RecordsOf(ListingsFailedWrites(id, msg), id) == Records(["100"], ["failed"], [ResultJson(Failed(msg))])
  {
    RunKeys(id);
    ProgressStrings();
    RecordsOfThree(StatusWrite(id, "failed"), ProgressWrite(id, 100), ResultWrite(id, Failed(msg)), id);
    RecordsOfOne(StatusWrite(id, "failed"), id);
    RecordsOfOne(ProgressWrite(id, 100), id);
    RecordsOfOne(ResultWrite(id, Failed(msg)), id);
  }

  lemma TerminalRecords(id: string, counts: RunResult, msg: string)
    ensures RecordsOf(FinishWrites(id, counts), id) == Records(["100"], ["finished"], [ResultJson(counts)])
    ensures RecordsOf(AbortWrites(id, msg), id) == Records(["100"], ["failed"], [ResultJson(Failed(msg))])
  {
    RunKeys(id);
    ProgressStrings();
    RecordsOfThree(ProgressWrite(id, 100), StatusWrite(id, "finished"), ResultWrite(id, counts), id);
    RecordsOfOne(ProgressWrite(id, 100), id);
    RecordsOfOne(StatusWrite(id, "finished"), id);
    RecordsOfOne(ResultWrite(id, counts), id);
    RecordsOfThree(ProgressWrite(id, 100), StatusWrite(id, "failed"), ResultWrite(id, Failed(msg)), id);
    RecordsOfOne(StatusWrite(id, "failed"), id);
    RecordsOfOne(ResultWrite(id, Failed(msg)), id);
  }

  // ---------------------------------------------------------------------------
  // Fingerprint writes never touch the run's keys

  predicate HashKeyed(ws: seq<Write>) {
    forall i :: 0 <= i < |ws| ==> ':' !in ws[i].key
  }

  lemma HashKeyedSnoc(ws: seq<Write>, w: Write)
    requires HashKeyed(ws) && ':' !in w.key
    ensures HashKeyed(ws + [w])
  {
  }

  lemma DedupStepHashKeyed(s0: Store, acc: Dedup, j: Value, sha256: Digester)
    requires IsHexDigester(sha256) && HashKeyed(acc.writes)
    ensures HashKeyed(DedupStep(s0, acc, j, sha256).writes)
  {
    var st := DedupStep(s0, acc, j, sha256);
    if acc.failure.None? && j.DictV? {
      var norm := ApifyRecord(j.entries);
      var h := HashJob(norm, sha256);
      var url := Encode(Get(norm, "Job Url", StrV("")));
      if h !in ApplyWrites(s0, acc.writes) && url.Ok? {
        assert st.writes == acc.writes + [Write(h, JobTtlSeconds, url.value)];
        HashKeyedSnoc(acc.writes, Write(h, JobTtlSeconds, url.value));
      } else {
        assert st.writes == acc.writes;
      }
    } else {
      assert st.writes == acc.writes;
    }
  }

  lemma {:induction false} DedupRunHashKeyed(s0: Store, jobs: seq<Value>, sha256: Digester)
    requires IsHexDigester(sha256)
    ensures HashKeyed(DedupRun(s0, jobs, sha256).writes)
    decreases |jobs|
  {
    if jobs != [] {
      DedupRunHashKeyed(s0, jobs[..|jobs| - 1], sha256);
      DedupStepHashKeyed(s0, DedupRun(s0, jobs[..|jobs| - 1], sha256), jobs[|jobs| - 1], sha256);
    }
  }

  lemma HashKeyedRecords(ws: seq<Write>, id: string)
    requires HashKeyed(ws)
    ensures RecordsOf(ws, id) == NoRecords
  {
    RunKeys(id);
    KeyValuesUnwritten(ws, ProgressKey(id));
    KeyValuesUnwritten(ws, StatusKey(id));
    KeyValuesUnwritten(ws, ResultKey(id));
  }

  // ---------------------------------------------------------------------------
  // The records of a run

  // The writes of the `try` block, stage by stage: `start`, then progress 25,
  // then the fingerprint writes `dw`, then progress 75, then the finish.

  lemma RecordsAt25(id: string)
    ensures RecordsOf(StartWrites(id) + [ProgressWrite(id, 25)], id) == Records(["0", "25"], ["started"], [])
  {
    StartRecords(id);
    ProgressRecords(id, 25);
    ProgressStrings();
    RecordsAppend(StartWrites(id), [ProgressWrite(id, 25)], id);
  }

  lemma RecordsAfterDedup(id: string, dw: seq<Write>)
    requires HashKeyed(dw)
    ensures RecordsOf(StartWrites(id) + [ProgressWrite(id, 25)] + dw, id) == Records(["0", "25"], ["started"], [])
  {
    RecordsAt25(id);
    HashKeyedRecords(dw, id);
    RecordsAppend(StartWrites(id) + [ProgressWrite(id, 25)], dw, id);
  }

  lemma RecordsAt75(id: string, dw: seq<Write>)
    requires HashKeyed(dw)
    ensures RecordsOf(StartWrites(id) + [ProgressWrite(id, 25)] + dw + [ProgressWrite(id, 75)], id)
            == Records(["0", "25", "75"], ["started"], [])
  {
    RecordsAfterDedup(id, dw);
    ProgressRecords(id, 75);
    ProgressStrings();
    RecordsAppend(StartWrites(id) + [ProgressWrite(id, 25)] + dw, [ProgressWrite(id, 75)], id);
  }

  lemma RecordsFinished(id: string, dw: seq<Write>, counts: RunResult)
    requires HashKeyed(dw)
    ensures RecordsOf(StartWrites(id) + [ProgressWrite(id, 25)] + dw + [ProgressWrite(id, 75)] + FinishWrites(id, counts), id)
            == Records(["0", "25", "75", "100"], ["started", "finished"], [ResultJson(counts)])
  {
    RecordsAt75(id, dw);
    TerminalRecords(id, counts, "");
    RecordsAppend(StartWrites(id) + [ProgressWrite(id, 25)] + dw + [ProgressWrite(id, 75)], FinishWrites(id, counts), id);
  }

  lemma RecordsListingsFailed(id: string, msg: string)
    ensures RecordsOf(StartWrites(id) + ListingsFailedWrites(id, msg), id)
            == Records(["0", "100"], ["started", "failed"], [ResultJson(Failed(msg))])
  {
    StartRecords(id);
    ListingsFailedRecords(id, msg);
    RecordsAppend(StartWrites(id), ListingsFailedWrites(id, msg), id);
  }

  /** What the `try` block records: a failed listings fetch ends it with
      progress 100, status `failed` and its error; an exception leaves status
      `started` and progress at the last stage reached; success records
      progress 25, 75 and 100, status `finished` and the counts. */
  lemma BodyRecords(id: string, minutes: int, world: World, s0: Store, sha256: Digester, emails: string)
    requires IsHexDigester(sha256)
    ensures var b := RunBody(id, minutes, world, s0, sha256, emails);
      var r := RecordsOf(b.writes, id);
      && (b.result.Ok? && b.result.value.Failed? ==>
            r == Records(["0", "100"], ["started", "failed"], [ResultJson(b.result.value)]))
      && (b.result.Ok? && b.result.value.Counts? ==>
            r == Records(["0", "25", "75", "100"], ["started", "finished"], [ResultJson(b.result.value)]))
      && (b.result.Err? ==>
            r.progress in {["0"], ["0", "25"], ["0", "25", "75"]} && r.status == ["started"] && r.result == [])
      && (world.listings.Err? ==>
            forall i :: 0 <= i < |b.writes| ==> b.writes[i].key in {StatusKey(id), ProgressKey(id), ResultKey(id)})
  {
    var start := StartWrites(id);
    StartRecords(id);
    match world.listings
    case Err(msg) =>
      RecordsListingsFailed(id, msg);
    case Ok(listings) =>
      match SimplifyJobs(listings, world.now, minutes)
      case Err(_) =>
      case Ok(simplify) =>
        var w25 := start + [ProgressWrite(id, 25)];
        RecordsAt25(id);
        match world.apify
        case Err(_) =>
        case Ok(items) =>
          var d := DedupRun(ApplyWrites(s0, w25), items, sha256);
          DedupRunHashKeyed(ApplyWrites(s0, w25), items, sha256);
          if d.failure.Some? {
            RecordsAfterDedup(id, d.writes);
          } else {
            RecordsAt75(id, d.writes);
            match DigestHtml(simplify, d.normalized)
            case Err(_) =>
            case Ok(html) =>
              if world.sendError.None? {
                RecordsFinished(id, d.writes, Counts(|simplify|, |d.normalized|, |d.newJobs|));
              }
          }
  }

  lemma AbortedRecords(r: Records, json: string)
    requires r.progress in {["0"], ["0", "25"], ["0", "25", "75"]} && r.status == ["started"] && r.result == []
    ensures var a := Append(r, Records(["100"], ["failed"], [json]));
      && a.progress in {["0", "100"], ["0", "25", "100"], ["0", "25", "75", "100"]}
      && a.status == ["started", "failed"] && a.result == [json]
  {
    if r.progress == ["0"] {
      assert ["0"] + ["100"] == ["0", "100"];
    } else if r.progress == ["0", "25"] {
      assert ["0", "25"] + ["100"] == ["0", "25", "100"];
    } else {
      assert ["0", "25", "75"] + ["100"] == ["0", "25", "75", "100"];
    }
  }

  /** Every run writes progress 0 first and 100 last, passing 25 and 75 in
      order as far as it got; its status goes from `started` to `finished`
      exactly when it returns counts, and to `failed` otherwise; and it writes
      its result once. */
  lemma RunRecords(id: string, minutes: int, world: World, s0: Store, sha256: Digester, emails: string)
    requires IsHexDigester(sha256)
    ensures var run := RunSpec(id, minutes, world, s0, sha256, emails);
      var r := RecordsOf(run.writes, id);
      && r.progress in {["0", "100"], ["0", "25", "100"], ["0", "25", "75", "100"]}
      && (run.ret.Counts? ==> r.progress == ["0", "25", "75", "100"])
      && r.status == ["started", if run.ret.Counts? then "finished" else "failed"]
      && r.result == [ResultJson(run.ret)]
  {
    var b := RunBody(id, minutes, world, s0, sha256, emails);
    BodyRecords(id, minutes, world, s0, sha256, emails);
    if b.result.Err? {
      RecordsAppend(b.writes, AbortWrites(id, b.result.error.msg), id);
      TerminalRecords(id, Failed(""), b.result.error.msg);
      AbortedRecords(RecordsOf(b.writes, id), ResultJson(Failed(b.result.error.msg)));
    }
  }

  /** After any run the store says progress 100, the terminal status and the
      JSON of what the run returned. */
  lemma RunLeavesFinalState(id: string, minutes: int, world: World, s0: Store, sha256: Digester, emails: string)
    requires IsHexDigester(sha256)
    ensures var run := RunSpec(id, minutes, world, s0, sha256, emails);
      var s := ApplyWrites(s0, run.writes);
      && ProgressKey(id) in s && s[ProgressKey(id)] == "100"
      && StatusKey(id) in s && s[StatusKey(id)] == (if run.ret.Counts? then "finished" else "failed")
      && ResultKey(id) in s && s[ResultKey(id)] == ResultJson(run.ret)
  {
    var run := RunSpec(id, minutes, world, s0, sha256, emails);
    RunRecords(id, minutes, world, s0, sha256, emails);
    StoreHoldsLastValue(s0, run.writes, ProgressKey(id));
    StoreHoldsLastValue(s0, run.writes, StatusKey(id));
    StoreHoldsLastValue(s0, run.writes, ResultKey(id));
  }

  /** When the listings cannot be fetched the run sends nothing and changes
      no key of the store but its own three: every other key is present
      afterwards exactly when it was before, with the same value. */
  lemma ListingsFailureLeavesOtherKeys(id: string, minutes: int, world: World, s0: Store, sha256: Digester,
                                       emails: string, k: string)
    requires IsHexDigester(sha256)
    requires world.listings.Err?
    requires k != StatusKey(id) && k != ProgressKey(id) && k != ResultKey(id)
    ensures var run := RunSpec(id, minutes, world, s0, sha256, emails);
      var s := ApplyWrites(s0, run.writes);
      && run.sent == []
      && run.ret == Failed(world.listings.error)
      && (k in s <==> k in s0)
      && (k in s0 ==> s[k] == s0[k])
  {
    var run := RunSpec(id, minutes, world, s0, sha256, emails);
    BodyRecords(id, minutes, world, s0, sha256, emails);
    assert run.writes == RunBody(id, minutes, world, s0, sha256, emails).writes;
    ApplyWritesElsewhere(s0, run.writes, k);
  }

  // ---------------------------------------------------------------------------
  // Counts, e-mail and fingerprints

  /** The store the dedup loop starts from: the run's status and progress keys
      added to the store the run started from. */
  function DedupStore(id: string, s0: Store): Store {
    ApplyWrites(s0, StartWrites(id) + [ProgressWrite(id, 25)])
  }

  lemma DedupStoreKeys(id: string, s0: Store)
    ensures DedupStore(id, s0).Keys == s0.Keys + {StatusKey(id), ProgressKey(id)}
  {
    var sw, p0, p25 := StatusWrite(id, "started"), ProgressWrite(id, 0), ProgressWrite(id, 25);
    ApplyWritesSnocKeys(s0, [], sw);
    ApplyWritesSnocKeys(s0, [sw], p0);
    ApplyWritesSnocKeys(s0, [sw, p0], p25);
    assert [] + [sw] == [sw];
    assert [sw] + [p0] == [sw, p0];
    assert StartWrites(id) + [p25] == [sw, p0] + [p25];
  }

  /** The run's own keys are never fingerprints, so writing them first does
      not change which fingerprints are new. */
  lemma DedupStoreFresh(id: string, items: seq<Value>, s0: Store, sha256: Digester)
    requires IsHexDigester(sha256) && AllDicts(items)
    ensures FreshFingerprints(items, DedupStore(id, s0), sha256) == FreshFingerprints(items, s0, sha256)
  {
    DedupStoreKeys(id, s0);
    RunKeys(id);
    var hs := Hashes(ApifyRecords(items), sha256);
    assert forall h :: h in SetOf(hs) ==> ':' !in h;
  }

  lemma KeysGrow(s: Store, a: seq<Write>, b: seq<Write>)
    ensures ApplyWrites(s, a).Keys <= ApplyWrites(s, a + b).Keys
  {
    ApplyWritesAppend(s, a, b);
    ApplyWritesKeepsKeys(ApplyWrites(s, a), b);
  }

  /** A run that returns counts fetched both sources, flattened every Apify
      job, and e-mailed one digest. The digest's LinkedIn table lists every
      Apify job, while the subject and `new_apify_jobs` count only the
      distinct fingerprints not stored before the run. */
  lemma RunSucceeds(id: string, minutes: int, world: World, s0: Store, sha256: Digester, emails: string)
    requires IsHexDigester(sha256)
    ensures var run := RunSpec(id, minutes, world, s0, sha256, emails);
      run.ret.Counts? ==>
        && world.listings.Ok? && world.apify.Ok? && world.sendError.None?
        && SimplifyJobs(world.listings.value, world.now, minutes).Ok?
        && AllDicts(world.apify.value)
        && var simplify := SimplifyJobs(world.listings.value, world.now, minutes).value;
           var html := DigestHtml(simplify, ApifyRecords(world.apify.value));
           && run.ret == Counts(|simplify|, |world.apify.value|, |FreshFingerprints(world.apify.value, s0, sha256)|)
           && html.Ok?
           && run.sent == [AlertEmail(emails, run.ret.recentJobs, run.ret.newApifyJobs, html.value)]
  {
    if RunSpec(id, minutes, world, s0, sha256, emails).ret.Counts? {
      SuccessPath(id, minutes, world, s0, sha256, emails);
      var items := world.apify.value;
      NewJobsCountFreshFingerprints(DedupStore(id, s0), items, sha256);
      DedupStoreFresh(id, items, s0, sha256);
    }
  }

  /** The only path on which a run returns counts. */
  lemma SuccessPath(id: string, minutes: int, world: World, s0: Store, sha256: Digester, emails: string)
    requires RunSpec(id, minutes, world, s0, sha256, emails).ret.Counts?
    ensures PastDedup(id, minutes, world, s0, sha256) && world.sendError.None?
    ensures var simplify := SimplifyJobs(world.listings.value, world.now, minutes).value;
      var d := DedupRun(DedupStore(id, s0), world.apify.value, sha256);
      var run := RunSpec(id, minutes, world, s0, sha256, emails);
      && DigestHtml(simplify, d.normalized).Ok?
      && run.ret == Counts(|simplify|, |d.normalized|, |d.newJobs|)
      && run.sent == [AlertEmail(emails, |simplify|, |d.newJobs|, DigestHtml(simplify, d.normalized).value)]
  {
  }

  /** A run that returns an error sends nothing. */
  lemma RunFailureSendsNothing(id: string, minutes: int, world: World, s0: Store, sha256: Digester, emails: string)
    ensures var run := RunSpec(id, minutes, world, s0, sha256, emails);
      run.ret.Failed? ==> run.sent == []
  {
  }

  /** The dedup loop ran to its end: the listings were fetched and filtered,
      and the Apify jobs were fetched and all hashed without an exception. */
  ghost predicate PastDedup(id: string, minutes: int, world: World, s0: Store, sha256: Digester) {
    && world.listings.Ok?
    && SimplifyJobs(world.listings.value, world.now, minutes).Ok?
    && world.apify.Ok?
    && DedupRun(DedupStore(id, s0), world.apify.value, sha256).failure.None?
  }

  /** Once the dedup loop has run to its end, every fingerprint it computed
      stays stored, whatever happens next: when the e-mail then fails, the run
      reports the error and sends nothing, yet those jobs count as seen. */
  lemma FingerprintsOutliveFailures(id: string, minutes: int, world: World, s0: Store, sha256: Digester, emails: string)
    requires PastDedup(id, minutes, world, s0, sha256)
    ensures var run := RunSpec(id, minutes, world, s0, sha256, emails);
      && AllDicts(world.apify.value)
      && SetOf(Hashes(ApifyRecords(world.apify.value), sha256)) <= ApplyWrites(s0, run.writes).Keys
      && (world.sendError.Some? ==> run.ret.Failed? && run.sent == [])
  {
    var run := RunSpec(id, minutes, world, s0, sha256, emails);
    var w25 := StartWrites(id) + [ProgressWrite(id, 25)];
    var items := world.apify.value;
    var d := DedupRun(DedupStore(id, s0), items, sha256);
    NewJobsCountFreshFingerprints(DedupStore(id, s0), items, sha256);
    ApplyWritesAppend(s0, w25, d.writes);
    var w75 := w25 + d.writes + [ProgressWrite(id, 75)];
    KeysGrow(s0, w25 + d.writes, [ProgressWrite(id, 75)]);
    var simplify := SimplifyJobs(world.listings.value, world.now, minutes).value;
    var counts := Counts(|simplify|, |d.normalized|, |d.newJobs|);
    KeysGrow(s0, w75, FinishWrites(id, counts));
    match DigestHtml(simplify, d.normalized)
    case Err(e) =>
      KeysGrow(s0, w75, AbortWrites(id, e.msg));
    case Ok(_) =>
      if world.sendError.Some? {
        KeysGrow(s0, w75, AbortWrites(id, world.sendError.value));
      }
  }

  /** A second run over the same Apify jobs, against the store the first run
      left, reports no new LinkedIn job. */
  lemma SecondRunFindsNoNewJobs(id1: string, id2: string, minutes: int, world1: World, world2: World,
                                s0: Store, sha256: Digester, emails: string)
    requires IsHexDigester(sha256) && PastDedup(id1, minutes, world1, s0, sha256)
    requires world2.apify == world1.apify
    ensures var s1 := ApplyWrites(s0, RunSpec(id1, minutes, world1, s0, sha256, emails).writes);
      var run2 := RunSpec(id2, minutes, world2, s1, sha256, emails);
      run2.ret.Counts? ==> run2.ret.newApifyJobs == 0
  {
    var s1 := ApplyWrites(s0, RunSpec(id1, minutes, world1, s0, sha256, emails).writes);
    FingerprintsOutliveFailures(id1, minutes, world1, s0, sha256, emails);
    RunSucceeds(id2, minutes, world2, s1, sha256, emails);
    assert FreshFingerprints(world1.apify.value, s1, sha256) == {};
  }
}
