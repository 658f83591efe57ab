/** `utils.hash_job`: the deduplication key of a job, the SHA-256 hex digest
    of the UTF-8 bytes of `title-company-url`. SHA-256 itself (FIPS 180-4) is a
    parameter of the model, a `Digester`. */
module Fingerprint {
  import opened Wrappers
  import opened Text
  import opened PyValue

  /** `lambda data: hashlib.sha256(data).hexdigest()`. */
  type Digester = seq<bv8> -> string

  predicate IsHexChar(c: char) {
    '0' <= c <= '9' || 'a' <= c <= 'f'
  }

  /** What a hex digest of SHA-256 always is: 64 lower-case hex characters. */
  ghost predicate IsHexDigester(sha256: Digester) {
    forall data :: |sha256(data)| == 64 && forall i :: 0 <= i < 64 ==> IsHexChar(sha256(data)[i])
  }

  /** The UTF-8 bytes of one character. */
  function Utf8Char(c: char): (bytes: seq<bv8>)
    ensures 1 <= |bytes| <= 4
    ensures (c as int < 0x80) <==> |bytes| == 1
  {
    var n := c as int;
    if n < 0x80 then [n as bv8]
    else if n < 0x800 then [(0xC0 + n / 64) as bv8, (0x80 + n % 64) as bv8]
    else if n < 0x10000 then
      [(0xE0 + n / 4096) as bv8, (0x80 + (n / 64) % 64) as bv8, (0x80 + n % 64) as bv8]
    else
      [(0xF0 + n / 262144) as bv8, (0x80 + (n / 4096) % 64) as bv8,
       (0x80 + (n / 64) % 64) as bv8, (0x80 + n % 64) as bv8]
  }

  /** `s.encode()`: at least one byte per character, exactly one for ASCII. */
  function Utf8Encode(s: string): (bytes: seq<bv8>)
    ensures |s| <= |bytes| <= 4 * |s|
    ensures (forall i :: 0 <= i < |s| ==> s[i] as int < 0x80) ==> |bytes| == |s|
    decreases |s|
  {
    if s == [] then [] else Utf8Char(s[0]) + Utf8Encode(s[1..])
  }

  /** `job.get(primary) or job.get(fallback, '')`, as the f-string inserts it. */
  function KeyComponent(job: Dict, primary: string, fallback: string): string {
    Format(Or(Get(job, primary, NoneV), Get(job, fallback, StrV(""))))
  }

  function TitleOf(job: Dict): string { KeyComponent(job, "Title", "title") }
  function CompanyOf(job: Dict): string { KeyComponent(job, "Company Name", "companyName") }
  function UrlOf(job: Dict): string { KeyComponent(job, "Job Url", "jobUrl") }

  /** `f"{title}-{company}-{url}"`. */
  function KeyFields(job: Dict): string {
    TitleOf(job) + "-" + CompanyOf(job) + "-" + UrlOf(job)
  }

  /** The six keys `hash_job` reads. */
  const KeyNames: seq<string> := ["Title", "title", "Company Name", "companyName", "Job Url", "jobUrl"]

  /** `hash_job(job)`. A hex digest never contains ':', so it can never be one
      of the run-state keys `status:…`, `progress:…`, `result:…`. */
  function HashJob(job: Dict, sha256: Digester): (h: string)
    ensures IsHexDigester(sha256) ==> |h| == 64 && forall i :: 0 <= i < |h| ==> IsHexChar(h[i])
    ensures IsHexDigester(sha256) ==> ':' !in h
  {
    var h := sha256(Utf8Encode(KeyFields(job)));
    assert IsHexDigester(sha256) ==> forall i :: 0 <= i < |h| ==> IsHexChar(h[i]);
    h
  }

  /** The key depends on the six key fields only: two dicts that agree on them
      hash alike, whatever their other keys and whatever their key order. */
  lemma HashDependsOnKeyFieldsOnly(a: Dict, b: Dict, sha256: Digester)
    requires forall k :: k in KeyNames ==> Lookup(a, k) == Lookup(b, k)
    ensures KeyFields(a) == KeyFields(b)
    ensures HashJob(a, sha256) == HashJob(b, sha256)
  {
    assert KeyNames[0] == "Title" && KeyNames[1] == "title";
    assert KeyNames[2] == "Company Name" && KeyNames[3] == "companyName";
    assert KeyNames[4] == "Job Url" && KeyNames[5] == "jobUrl";
  }

  /** A truthy capitalised field wins; otherwise the lower-case one is used,
      and "" stands in when it is absent too. */
  lemma KeyComponentFallback(job: Dict, primary: string, fallback: string)
    ensures Truthy(Get(job, primary, NoneV)) ==> KeyComponent(job, primary, fallback) == Format(Get(job, primary, NoneV))
    ensures !Truthy(Get(job, primary, NoneV)) && fallback !in Keys(job) ==> KeyComponent(job, primary, fallback) == ""
  {
  }

  /** For a record holding the three capitalised fields as non-empty strings,
      the key string is exactly `title-company-url`. */
  lemma KeyFieldsOfStrings(t: string, c: string, u: string)
    requires t != "" && c != "" && u != ""
    ensures KeyFields([("Title", StrV(t)), ("Company Name", StrV(c)), ("Job Url", StrV(u))])
            == t + "-" + c + "-" + u
  {
    var a := [("Title", StrV(t)), ("Company Name", StrV(c)), ("Job Url", StrV(u))];
    assert a[1..][1..] == [a[2]];
    assert Lookup(a[1..][1..], "Job Url") == Some(StrV(u));
    assert Lookup(a[1..], "Job Url") == Some(StrV(u));
    assert Lookup(a, "Title") == Some(StrV(t));
    assert Lookup(a, "Company Name") == Some(StrV(c));
    assert Lookup(a, "Job Url") == Some(StrV(u));
  }

  /** The "-" separator makes different field triples share a key: the key is
      not injective in (title, company, url). */
  lemma SeparatorCollision()
    ensures KeyFields([("Title", StrV("a-b")), ("Company Name", StrV("c")), ("Job Url", StrV("u"))])
         == KeyFields([("Title", StrV("a")), ("Company Name", StrV("b-c")), ("Job Url", StrV("u"))])
  {
    KeyFieldsOfStrings("a-b", "c", "u");
    KeyFieldsOfStrings("a", "b-c", "u");
  }
}
