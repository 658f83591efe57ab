/** What a background run promises: how the Apify jobs are deduplicated
    against the store, what the run records under its own keys, and what it
    e-mails. */
module TaskProperties {
  import opened Wrappers
  import opened Text
  import opened PyValue
  import opened KeyValueStore
  import opened Mail
  import opened Fingerprint
  import opened Digest
  import opened Sequences
  import opened Tasks

  // ---------------------------------------------------------------------------
  // Deduplication

  /** The fingerprints of flattened jobs, in order. */
  function Hashes(ns: seq<Dict>, sha256: Digester): (hs: seq<string>)
    ensures |hs| == |ns| && forall i :: 0 <= i < |ns| ==> hs[i] == HashJob(ns[i], sha256)
  {
    seq(|ns|, i requires 0 <= i < |ns| => HashJob(ns[i], sha256))
  }

  /** The `i`-th fingerprint is neither stored already nor seen earlier in the run. */
  predicate FirstUnseen(hs: seq<string>, s0: Store, i: int)
    requires 0 <= i < |hs|
  {
    hs[i] !in s0 && forall j :: 0 <= j < i ==> hs[j] != hs[i]
  }

  function NewMask(hs: seq<string>, s0: Store): (m: seq<bool>)
    ensures |m| == |hs| && forall i :: 0 <= i < |hs| ==> m[i] == FirstUnseen(hs, s0, i)
  {
    seq(|hs|, i requires 0 <= i < |hs| => FirstUnseen(hs, s0, i))
  }

  function WriteKeys(ws: seq<Write>): (ks: seq<string>)
    ensures |ks| == |ws| && forall i :: 0 <= i < |ws| ==> ks[i] == ws[i].key
  {
    seq(|ws|, i requires 0 <= i < |ws| => ws[i].key)
  }

  lemma HashesSnoc(ns: seq<Dict>, n: Dict, sha256: Digester)
    ensures Hashes(ns + [n], sha256) == Hashes(ns, sha256) + [HashJob(n, sha256)]
  {
  }

  lemma NewMaskSnoc(hs: seq<string>, h: string, s0: Store)
    ensures NewMask(hs + [h], s0) == NewMask(hs, s0) + [FirstUnseen(hs + [h], s0, |hs|)]
  {
    var m := NewMask(hs + [h], s0);
    forall i | 0 <= i < |hs|
      ensures m[i] == NewMask(hs, s0)[i]
    {
      assert forall j :: 0 <= j <= i ==> (hs + [h])[j] == hs[j];
    }
  }

  lemma ApplyWritesSnocKeys(s: Store, ws: seq<Write>, w: Write)
    ensures ApplyWrites(s, ws + [w]).Keys == ApplyWrites(s, ws).Keys + {w.key}
  {
    assert (ws + [w])[..|ws|] == ws;
  }

  /** Selecting the first unseen fingerprints yields each fingerprint that is
      not stored yet exactly once. */
  lemma {:induction false} FirstUnseenSelect(hs: seq<string>, s0: Store)
    ensures Distinct(Select(hs, NewMask(hs, s0)))
    ensures SetOf(Select(hs, NewMask(hs, s0))) == SetOf(hs) - s0.Keys
    decreases |hs|
  {
    if hs != [] {
      var init, h := hs[..|hs| - 1], hs[|hs| - 1];
      assert hs == init + [h];
      FirstUnseenSelect(init, s0);
      FirstUnseenStep(init, h, s0);
    }
  }

  /** One more fingerprint keeps the selection distinct and equal to the
      fingerprints not stored yet. */
  lemma FirstUnseenStep(init: seq<string>, h: string, s0: Store)
    requires Distinct(Select(init, NewMask(init, s0)))
    requires SetOf(Select(init, NewMask(init, s0))) == SetOf(init) - s0.Keys
    ensures Distinct(Select(init + [h], NewMask(init + [h], s0)))
    ensures SetOf(Select(init + [h], NewMask(init + [h], s0))) == SetOf(init + [h]) - s0.Keys
  {
    var hs := init + [h];
    NewMaskSnoc(init, h, s0);
    var sel := Select(init, NewMask(init, s0));
    var isNew := FirstUnseen(hs, s0, |init|);
    SelectSnoc(init, NewMask(init, s0), h, isNew);
    SelectMembers(init, NewMask(init, s0));
    assert SetOf(hs) == SetOf(init) + {h};
    if isNew {
      assert forall j :: 0 <= j < |init| ==> hs[j] == init[j];
      assert h !in init;
      assert h !in sel;
      assert Select(hs, NewMask(hs, s0)) == sel + [h];
      assert SetOf(sel + [h]) == SetOf(sel) + {h};
    } else {
      assert Select(hs, NewMask(hs, s0)) == sel;
      if h !in s0 {
        var j :| 0 <= j < |init| && hs[j] == h;
        assert h in SetOf(init);
      }
    }
  }

  /** What the dedup loop has built after `jobs` when no iteration raised:
      one flattened record per Apify job; as new jobs, the records whose
      fingerprint was neither stored nor seen earlier; one write per new job,
      under its fingerprint; and a store holding every fingerprint. */
  ghost predicate DedupFacts(s0: Store, jobs: seq<Value>, d: Dedup, sha256: Digester) {
    var hs := Hashes(d.normalized, sha256);
    && d.failure.None?
    && |d.normalized| == |jobs|
    && (forall i :: 0 <= i < |jobs| ==> jobs[i].DictV? && d.normalized[i] == ApifyRecord(jobs[i].entries))
    && d.newJobs == Select(d.normalized, NewMask(hs, s0))
    && WriteKeys(d.writes) == Select(hs, NewMask(hs, s0))
    && |d.writes| == |d.newJobs|
    && ApplyWrites(s0, d.writes).Keys == s0.Keys + SetOf(hs)
  }

  lemma SetOfSnoc<T>(xs: seq<T>, x: T)
    ensures SetOf(xs + [x]) == SetOf(xs) + {x}
  {
  }

  lemma WriteKeysSnoc(ws: seq<Write>, w: Write)
    ensures WriteKeys(ws + [w]) == WriteKeys(ws) + [w.key]
  {
  }

  /** A fingerprint already stored, or seen earlier, is not new. */
  lemma MaskSeen(hs: seq<string>, h: string, s0: Store)
    requires h in s0.Keys + SetOf(hs)
    ensures NewMask(hs + [h], s0) == NewMask(hs, s0) + [false]
    ensures s0.Keys + SetOf(hs + [h]) == s0.Keys + SetOf(hs)
  {
    NewMaskSnoc(hs, h, s0);
    SetOfSnoc(hs, h);
    if h !in s0 {
      var k :| 0 <= k < |hs| && hs[k] == h;
      assert (hs + [h])[k] == h;
    }
  }

  /** A fingerprint neither stored nor seen earlier is new. */
  lemma MaskUnseen(hs: seq<string>, h: string, s0: Store)
    requires h !in s0.Keys + SetOf(hs)
    ensures NewMask(hs + [h], s0) == NewMask(hs, s0) + [true]
    ensures s0.Keys + SetOf(hs + [h]) == s0.Keys + SetOf(hs) + {h}
  {
    NewMaskSnoc(hs, h, s0);
    SetOfSnoc(hs, h);
    assert forall k :: 0 <= k < |hs| ==> hs[k] in SetOf(hs);
  }

  /** A job whose fingerprint is already stored, or was seen earlier, is
      counted but not new, and nothing is written. */
  lemma AdmitSeen(s0: Store, jobs: seq<Value>, acc: Dedup, j: Value, norm: Dict, sha256: Digester)
    requires DedupFacts(s0, jobs, acc, sha256) && j.DictV? && norm == ApifyRecord(j.entries)
    requires HashJob(norm, sha256) in ApplyWrites(s0, acc.writes)
    ensures DedupFacts(s0, jobs + [j], acc.(normalized := acc.normalized + [norm]), sha256)
  {
    var h := HashJob(norm, sha256);
    var hs := Hashes(acc.normalized, sha256);
    HashesSnoc(acc.normalized, norm, sha256);
    MaskSeen(hs, h, s0);
    SelectSnoc(acc.normalized, NewMask(hs, s0), norm, false);
    SelectSnoc(hs, NewMask(hs, s0), h, false);
    JobsSnoc(jobs, j, acc.normalized, norm);
  }

  /** A job whose fingerprint is new is counted, listed as new, and its
      fingerprint written. */
  lemma AdmitNew(s0: Store, jobs: seq<Value>, acc: Dedup, j: Value, norm: Dict, w: Write, sha256: Digester)
    requires DedupFacts(s0, jobs, acc, sha256) && j.DictV? && norm == ApifyRecord(j.entries)
    requires w.key == HashJob(norm, sha256) && w.key !in ApplyWrites(s0, acc.writes)
    ensures DedupFacts(s0, jobs + [j], Dedup(acc.normalized + [norm], acc.newJobs + [norm], acc.writes + [w], None), sha256)
  {
    var h := w.key;
    var hs := Hashes(acc.normalized, sha256);
    HashesSnoc(acc.normalized, norm, sha256);
    MaskUnseen(hs, h, s0);
    SelectSnoc(acc.normalized, NewMask(hs, s0), norm, true);
    SelectSnoc(hs, NewMask(hs, s0), h, true);
    WriteKeysSnoc(acc.writes, w);
    ApplyWritesSnocKeys(s0, acc.writes, w);
    JobsSnoc(jobs, j, acc.normalized, norm);
  }

  lemma JobsSnoc(jobs: seq<Value>, j: Value, ns: seq<Dict>, n: Dict)
    requires |ns| == |jobs| && j.DictV? && n == ApifyRecord(j.entries)
    requires forall i :: 0 <= i < |jobs| ==> jobs[i].DictV? && ns[i] == ApifyRecord(jobs[i].entries)
    ensures forall i :: 0 <= i < |jobs| + 1 ==> (jobs + [j])[i].DictV? && (ns + [n])[i] == ApifyRecord((jobs + [j])[i].entries)
  {
  }

  /** An iteration that does not raise: the job is a dict; when its fingerprint
      is stored it is only counted, otherwise it is also listed as new and its
      `Job Url` written under the fingerprint. */
  lemma DedupStepCases(s0: Store, acc: Dedup, j: Value, sha256: Digester)
    requires DedupStep(s0, acc, j, sha256).failure.None?
    ensures acc.failure.None? && j.DictV?
    ensures var norm := ApifyRecord(j.entries);
      var h := HashJob(norm, sha256);
      var url := Encode(Get(norm, "Job Url", StrV("")));
      && (h in ApplyWrites(s0, acc.writes) ==>
            DedupStep(s0, acc, j, sha256) == acc.(normalized := acc.normalized + [norm]))
      && (h !in ApplyWrites(s0, acc.writes) ==>
            url.Ok? && DedupStep(s0, acc, j, sha256)
            == Dedup(acc.normalized + [norm], acc.newJobs + [norm], acc.writes + [Write(h, JobTtlSeconds, url.value)], None))
  {
  }

  /** The dedup loop, when no iteration raised, leaves `DedupFacts`. */
  lemma {:induction false} DedupRunFacts(s0: Store, jobs: seq<Value>, sha256: Digester)
    requires DedupRun(s0, jobs, sha256).failure.None?
    ensures DedupFacts(s0, jobs, DedupRun(s0, jobs, sha256), sha256)
    decreases |jobs|
  {
    if jobs == [] {
      assert Hashes([], sha256) == [];
    } else {
      var init, j := jobs[..|jobs| - 1], jobs[|jobs| - 1];
      SplitLast(jobs);
      var acc := DedupRun(s0, init, sha256);
      assert DedupRun(s0, jobs, sha256) == DedupStep(s0, acc, j, sha256);
      DedupStepCases(s0, acc, j, sha256);
      DedupRunFacts(s0, init, sha256);
      var norm := ApifyRecord(j.entries);
      var h := HashJob(norm, sha256);
      if h in ApplyWrites(s0, acc.writes) {
        AdmitSeen(s0, init, acc, j, norm, sha256);
      } else {
        var w := Write(h, JobTtlSeconds, Encode(Get(norm, "Job Url", StrV(""))).value);
        AdmitNew(s0, init, acc, j, norm, w, sha256);
      }
    }
  }

  /** When no iteration raised, the dedup loop writes only fingerprints that
      were not stored when it started, and never the same one twice. */
  lemma DedupWritesFresh(s0: Store, jobs: seq<Value>, sha256: Digester)
    requires DedupRun(s0, jobs, sha256).failure.None?
    ensures var ws := DedupRun(s0, jobs, sha256).writes;
      && (forall i :: 0 <= i < |ws| ==> ws[i].key !in s0)
      && (forall i, j :: 0 <= i < j < |ws| ==> ws[i].key != ws[j].key)
  {
    var d := DedupRun(s0, jobs, sha256);
    DedupRunFacts(s0, jobs, sha256);
    var hs := Hashes(d.normalized, sha256);
    FirstUnseenSelect(hs, s0);
    var ks := WriteKeys(d.writes);
    forall i | 0 <= i < |d.writes|
      ensures d.writes[i].key !in s0
    {
      assert ks[i] in SetOf(ks);
    }
  }

  predicate AllDicts(items: seq<Value>) {
    forall i :: 0 <= i < |items| ==> items[i].DictV?
  }

  /** The records the loop builds for the Apify jobs. */
  function ApifyRecords(items: seq<Value>): (rs: seq<Dict>)
    requires AllDicts(items)
    ensures |rs| == |items| && forall i :: 0 <= i < |items| ==> rs[i] == ApifyRecord(items[i].entries)
  {
    seq(|items|, i requires 0 <= i < |items| => ApifyRecord(items[i].entries))
  }

  /** The fingerprints of the jobs that were not stored before the loop. */
  function FreshFingerprints(items: seq<Value>, s0: Store, sha256: Digester): set<string>
    requires AllDicts(items)
  {
    SetOf(Hashes(ApifyRecords(items), sha256)) - s0.Keys
  }

  /** When no iteration raises: every Apify job was a dict and is listed;
      `new_apify_jobs` is the number of distinct fingerprints among them that
      were not stored before the loop; and afterwards every fingerprint is
      stored. */
  lemma NewJobsCountFreshFingerprints(s0: Store, jobs: seq<Value>, sha256: Digester)
    requires DedupRun(s0, jobs, sha256).failure.None?
    ensures var d := DedupRun(s0, jobs, sha256);
      && AllDicts(jobs)
      && d.normalized == ApifyRecords(jobs)
      && |d.newJobs| == |FreshFingerprints(jobs, s0, sha256)| <= |jobs|
      && SetOf(Hashes(d.normalized, sha256)) <= ApplyWrites(s0, d.writes).Keys
  {
    var d := DedupRun(s0, jobs, sha256);
    DedupRunFacts(s0, jobs, sha256);
    assert d.normalized == ApifyRecords(jobs);
    var hs := Hashes(d.normalized, sha256);
    FirstUnseenSelect(hs, s0);
    DistinctCardinality(Select(hs, NewMask(hs, s0)));
  }

  lemma ApifyRecordsSnoc(items: seq<Value>)
    requires AllDicts(items) && items != []
    ensures AllDicts(items[..|items| - 1])
    ensures ApifyRecords(items) == ApifyRecords(items[..|items| - 1]) + [ApifyRecord(items[|items| - 1].entries)]
  {
    var init := items[..|items| - 1];
    var a, b := ApifyRecords(items), ApifyRecords(init) + [ApifyRecord(items[|items| - 1].entries)];
    forall i | 0 <= i < |items|
      ensures a[i] == b[i]
    {
      if i < |init| {
        assert items[i] == init[i];
      }
    }
  }

  lemma DedupStepStored(s1: Store, acc: Dedup, j: Value, sha256: Digester)
    requires acc.failure.None? && acc.writes == [] && j.DictV?
    requires HashJob(ApifyRecord(j.entries), sha256) in s1
    ensures DedupStep(s1, acc, j, sha256) == acc.(normalized := acc.normalized + [ApifyRecord(j.entries)])
  {
  }

  /** A loop over jobs whose fingerprints are all stored finds nothing new and
      writes nothing. */
  lemma {:induction false} DedupAllStored(s1: Store, jobs: seq<Value>, sha256: Digester)
    requires AllDicts(jobs) && forall i :: 0 <= i < |jobs| ==> HashJob(ApifyRecord(jobs[i].entries), sha256) in s1
    ensures DedupRun(s1, jobs, sha256) == Dedup(ApifyRecords(jobs), [], [], None)
    decreases |jobs|
  {
    if jobs == [] {
      assert ApifyRecords(jobs) == [];
    } else {
      var init, j := jobs[..|jobs| - 1], jobs[|jobs| - 1];
      ApifyRecordsSnoc(jobs);
      assert forall i :: 0 <= i < |init| ==> init[i] == jobs[i];
      DedupAllStored(s1, init, sha256);
      DedupStepStored(s1, DedupRun(s1, init, sha256), j, sha256);
    }
  }

  /** Running the loop again over the same jobs, against the store the first
      loop left, finds no new job and writes nothing. */
  lemma RerunFindsNothingNew(s0: Store, jobs: seq<Value>, sha256: Digester)
    requires DedupRun(s0, jobs, sha256).failure.None?
    ensures var d := DedupRun(s0, jobs, sha256);
      DedupRun(ApplyWrites(s0, d.writes), jobs, sha256) == Dedup(d.normalized, [], [], None)
  {
    var d := DedupRun(s0, jobs, sha256);
    NewJobsCountFreshFingerprints(s0, jobs, sha256);
    var s1 := ApplyWrites(s0, d.writes);
    forall i | 0 <= i < |jobs|
      ensures HashJob(ApifyRecord(jobs[i].entries), sha256) in s1
    {
      assert Hashes(d.normalized, sha256)[i] in SetOf(Hashes(d.normalized, sha256));
    }
    DedupAllStored(s1, jobs, sha256);
  }
}
