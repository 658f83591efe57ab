/** resume_scorer.py: a scorer holding the text of one resume, which asks a
    language model how well a job fits it and reads a 0-100 score out of the
    reply, and the module-level scorer that `initialize_resume_scorer` installs
    and `get_job_score` consults. The model, PDF reading and HTTP are inputs:
    the model's reply, and the page texts a file or a URL yields. */
module ResumeScoring {
  import opened Wrappers
  import opened Text
  import opened PyValue

  const GeminiModel: string := "models/gemini-2.5-flash-lite"
  const NoResumeMessage: string := "No resume loaded. Please load a resume first."

  /** The text `extract_text` gives for each page of a PDF (None for a page without text). */
  type Pages = seq<Option<string>>

  /** Opening a PDF (a local path, or a URL to fetch): its pages, or the message
      of the exception raised while fetching or reading it. */
  type PdfSource = string -> Result<Pages, string>

  /** `"".join(page.extract_text() or "" for page in pdf_reader.pages)`. */
  function PagesText(pages: Pages): string
    decreases |pages|
  {
    if pages == [] then "" else pages[0].GetOr("") + PagesText(pages[1..])
  }

  // ---------------------------------------------------------------------------
  // Reading the score out of the model's reply

  /** The first line of the stripped reply. */
  function FirstLine(reply: string): string {
    Split(Strip(reply), "\n")[0]
  }

  /** `max(0, min(100, score))`. */
  function Clamp(score: int): (r: int)
    ensures 0 <= r <= 100
    ensures 0 <= score <= 100 ==> r == score
  {
    if score > 100 then 100 else if score < 0 then 0 else score
  }

  /** The digits left of the reply's first line once "SCORE:" is removed and
      the rest stripped. */
  function ScoreDigits(reply: string): string {
    KeepDigits(Strip(ReplaceAll(FirstLine(reply), "SCORE:", "")))
  }

  /** Line 88-89: the digits read as one decimal number, which is clamped;
      `int("")` raises when there is no digit, and `int()` refuses more than
      4300 digits. */
  function ParseScore(reply: string): Result<int, Exc> {
    var digits := ScoreDigits(reply);
    if digits == [] then Err(ValueError("invalid literal for int() with base 10: ''"))
    else if |digits| > MaxStrDigits then Err(ValueError(DigitLimitMessage(|digits|)))
    else Ok(Clamp(DigitsValue(digits)))
  }

  /** The parse is `max(0, min(100, int(digits)))`, with `int()`'s errors
      passed on. */
  lemma ParseScoreIsClampedInt(reply: string)
    ensures ParseScore(reply)
      == match ParseIntLiteral(ScoreDigits(reply))
         case Err(e) => Err(e)
         case Ok(score) => Ok(Clamp(score))
  {
    ParseIntOfDigits(ScoreDigits(reply));
  }

  /** The parse reads all the decimal digits of the reply's first line as one
      number: removing "SCORE:" and stripping drop no digit. It fails exactly
      when that line has no digit or more than 4300 of them. */
  lemma ParseScoreReadsFirstLineDigits(reply: string)
    ensures var digits := KeepDigits(FirstLine(reply));
      ParseScore(reply) == if digits == [] then Err(ValueError("invalid literal for int() with base 10: ''"))
                           else if |digits| > MaxStrDigits then Err(ValueError(DigitLimitMessage(|digits|)))
                           else Ok(Clamp(DigitsValue(digits)))
  {
    var line := FirstLine(reply);
    var removed := ReplaceAll(line, "SCORE:", "");
    assert KeepDigits("SCORE:") == [] by {
      assert forall i :: 0 <= i < |"SCORE:"| ==> !IsDigit("SCORE:"[i]);
    }
    KeepDigitsOfDeletion(line, "SCORE:");
    KeepDigitsOfStrip(removed);
  }

  /** A one-line reply without surrounding whitespace is its own first line. */
  lemma FirstLineOfOneLine(reply: string)
    requires reply != [] && !IsSpace(reply[0]) && !IsSpace(reply[|reply| - 1]) && '\n' !in reply
    ensures FirstLine(reply) == reply
  {
    assert StripLeft(reply) == reply;
    assert StripRight(reply) == reply;
    if Contains(reply, "\n") {
      ContainsNeedsFirstChar(reply, "\n");
    }
    SplitWithoutSeparator(reply, "\n");
  }

  lemma ScoreLabelRemoved(digits: string)
    requires AllDigits(digits)
    ensures ReplaceAll("SCORE: " + digits, "SCORE:", "") == " " + digits
  {
    var reply := "SCORE: " + digits;
    var rest := " " + digits;
    assert reply[..6] == "SCORE:" && reply[6..] == rest;
    assert 'S' !in rest;
    if Contains(rest, "SCORE:") {
      ContainsNeedsFirstChar(rest, "SCORE:");
    }
  }

  lemma StripSpaceDigits(digits: string)
    requires digits != [] && AllDigits(digits)
    ensures Strip(" " + digits) == digits
  {
    var rest := " " + digits;
    assert !IsSpace(digits[0]) by { assert IsDigit(digits[0]); }
    assert !IsSpace(digits[|digits| - 1]) by { assert IsDigit(digits[|digits| - 1]); }
    assert StripLeft(digits) == digits;
    assert StripRight(digits) == digits;
    assert IsSpace(rest[0]) && rest[1..] == digits;
    assert StripLeft(rest) == StripLeft(digits);
    assert Strip(rest) == StripRight(StripLeft(rest));
  }

  /** A reply in the requested format, "SCORE: n", scores n, clamped to 100,
      unless n has more than 4300 digits. */
  lemma ReportedScoreReadsBack(n: nat)
    ensures var digits := NatToString(n);
      ParseScore("SCORE: " + digits)
        == if |digits| > MaxStrDigits then Err(ValueError(DigitLimitMessage(|digits|))) else Ok(Clamp(n))
  {
    var digits := NatToString(n);
    var reply := "SCORE: " + digits;
    assert '\n' !in reply by {
      assert forall i :: 0 <= i < |reply| ==> reply[i] == if i < 7 then "SCORE: "[i] else digits[i - 7];
    }
    assert reply[|reply| - 1] == digits[|digits| - 1];
    FirstLineOfOneLine(reply);
    ScoreLabelRemoved(digits);
    StripSpaceDigits(digits);
    KeepDigitsOfDigits(digits);
    DigitsValueOfNatToString(n);
  }

  /** Lines 68-92 for a scorer holding `resume`: no resume (None or empty) is
      a ValueError; otherwise the clamped score, or 0 when the model call, the
      text of its reply or the parse fails. `reply` is the model's reply text
      (None when it has none), or the message of the exception the call raised. */
  function ScoreReply(resume: Option<string>, reply: Result<Option<string>, string>): (r: Result<int, Exc>)
    ensures r.Err? <==> resume.None? || resume.value == ""
    ensures r.Err? ==> r.error == ValueError(NoResumeMessage)
    ensures r.Ok? ==> 0 <= r.value <= 100
  {
    if resume.None? || resume.value == "" then Err(ValueError(NoResumeMessage))
    else
      match reply
      case Err(_) => Ok(0)
      case Ok(None) => Ok(0)
      case Ok(Some(text)) =>
        match ParseScore(text)
        case Err(_) => Ok(0)
        case Ok(score) => Ok(score)
  }

  /** A scorer with a resume answers 0 whenever the reply's first line has
      no digit, rather than raising. */
  lemma NoDigitScoresZero(resume: string, text: string)
    requires resume != "" && KeepDigits(FirstLine(text)) == []
    ensures ScoreReply(Some(resume), Ok(Some(text))) == Ok(0)
  {
    ParseScoreReadsFirstLineDigits(text);
    assert ParseScore(text).Err?;
  }

  /** A well-formed "SCORE: n" reply with n <= 100 gives n itself. */
  lemma WellFormedReplyScores(resume: string, n: nat)
    requires resume != "" && n <= 100
    ensures ScoreReply(Some(resume), Ok(Some("SCORE: " + NatToString(n)))) == Ok(n)
  {
    var text := "SCORE: " + NatToString(n);
    NatToStringOfSmall(n);
    assert !(|NatToString(n)| > MaxStrDigits);
    ReportedScoreReadsBack(n);
    assert ParseScore(text) == Ok(Clamp(n));
    assert Clamp(n) == n;
  }

  lemma NatToStringOfSmall(n: nat)
    requires n <= 100
    ensures |NatToString(n)| <= 3
  {
    if n >= 10 {
      assert NatToString(n) == NatToString(n / 10) + [DigitChar(n % 10)];
      assert |NatToString(n / 10)| <= 2;
    }
  }

  /** A "SCORE: n" reply whose n has more than 4300 digits scores 0: `int()`
      refuses it and the scorer swallows the error. */
  lemma OverlongScoreScoresZero(resume: string, n: nat)
    requires resume != "" && |NatToString(n)| > MaxStrDigits
    ensures ScoreReply(Some(resume), Ok(Some("SCORE: " + NatToString(n)))) == Ok(0)
  {
    ReportedScoreReadsBack(n);
    assert ParseScore("SCORE: " + NatToString(n)).Err?;
  }

  // ---------------------------------------------------------------------------
  // The GitHub link rewrite

  /** Line 47-48: a GitHub page link becomes the link of the raw file. */
  function RawUrl(url: string): string {
    if Contains(url, "github.com") && Contains(url, "blob") then
      ReplaceAll(ReplaceAll(url, "github.com", "raw.githubusercontent.com"), "/blob/", "/")
    else url
  }

  /** The link is left alone unless it names both "github.com" and "blob";
      then every "github.com" becomes "raw.githubusercontent.com" and, in the
      result, every "/blob/" becomes "/". */
  lemma RawUrlRewritesEveryOccurrence(url: string)
    ensures !(Contains(url, "github.com") && Contains(url, "blob")) ==> RawUrl(url) == url
    ensures Contains(url, "github.com") && Contains(url, "blob") ==>
      var raw := Join(Split(url, "github.com"), "raw.githubusercontent.com");
      RawUrl(url) == Join(Split(raw, "/blob/"), "/")
  {
    var raw := ReplaceAll(url, "github.com", "raw.githubusercontent.com");
    ReplaceAllIsJoinOfSplit(url, "github.com", "raw.githubusercontent.com");
    ReplaceAllIsJoinOfSplit(raw, "/blob/", "/");
  }

  // ---------------------------------------------------------------------------
  // The scorer

  class ResumeScorer {
    var resumeText: Option<string>
    const model: string

    /** `ResumeScorer()`, once its API key has been checked: no resume yet. */
    constructor ()
      ensures resumeText == None && model == GeminiModel
    {
      resumeText := None;
      model := GeminiModel;
    }

    /** The common end of the two PDF loaders (lines 36-39 and 53-56): the
        pages' text, stripped, becomes the resume. */
    method LoadPages(pdf: Result<Pages, string>) returns (r: Result<string, Exc>)
      modifies this
      ensures pdf.Err? ==> r == Err(Raised(pdf.error)) && resumeText == old(resumeText)
      ensures pdf.Ok? ==> r == Ok(Strip(PagesText(pdf.value))) && resumeText == Some(r.value)
      ensures r.Ok? ==> Strip(r.value) == r.value
    {
      if pdf.Err? {
        return Err(Raised(pdf.error));
      }
      var text := Strip(PagesText(pdf.value));
      StripIdempotent(PagesText(pdf.value));
      resumeText := Some(text);
      return Ok(text);
    }

    /** `load_resume_from_pdf(path)`. */
    method LoadResumeFromPdf(path: string, readPdf: PdfSource) returns (r: Result<string, Exc>)
      modifies this
      ensures readPdf(path).Err? ==> r == Err(Raised(readPdf(path).error)) && resumeText == old(resumeText)
      ensures readPdf(path).Ok? ==> r == Ok(Strip(PagesText(readPdf(path).value))) && resumeText == Some(r.value)
    {
      r := LoadPages(readPdf(path));
    }

    /** `load_resume_from_url(url)`: the GitHub rewrite, then the fetch of the
        rewritten link. */
    method LoadResumeFromUrl(url: string, fetchPdf: PdfSource) returns (r: Result<string, Exc>)
      modifies this
      ensures var pdf := fetchPdf(RawUrl(url));
        && (pdf.Err? ==> r == Err(Raised(pdf.error)) && resumeText == old(resumeText))
        && (pdf.Ok? ==> r == Ok(Strip(PagesText(pdf.value))) && resumeText == Some(r.value))
    {
      r := LoadPages(fetchPdf(RawUrl(url)));
    }

    /** Lines 100-107 once the source is chosen: the loader it names. */
    method LoadFrom(source: Source, readPdf: PdfSource, fetchPdf: PdfSource) returns (r: Result<(), Exc>)
      modifies this
      ensures var text := LoadedText(source, readPdf, fetchPdf);
        && (r.Ok? <==> source.NoSource? || text.Some?)
        && resumeText == (if text.Some? then text else old(resumeText))
    {
      match source {
      case FromUrl(u) =>
        var loaded := LoadResumeFromUrl(u, fetchPdf);
        if loaded.Err? {
          return Err(loaded.error);
        }
      case FromPdf(p) =>
        var loaded := LoadResumeFromPdf(p, readPdf);
        if loaded.Err? {
          return Err(loaded.error);
        }
      case FromText(t) =>
        LoadResumeFromText(t);
      case NoSource =>
      }
      return Ok(());
    }

    /** `load_resume_from_text(text)`. */
    method LoadResumeFromText(text: string)
      modifies this
      ensures resumeText == Some(Strip(text))
      ensures Strip(resumeText.value) == resumeText.value
    {
      StripIdempotent(text);
      resumeText := Some(Strip(text));
    }

    /** `score_job_match(title, description, company)`, given the model's reply. */
    method ScoreJobMatch(jobTitle: string, jobDescription: string, companyName: string,
                         reply: Result<Option<string>, string>)
      returns (r: Result<int, Exc>)
      ensures r == ScoreReply(resumeText, reply)
    {
      if resumeText.None? || resumeText.value == "" {
        return Err(ValueError(NoResumeMessage));
      }
      if reply.Err? || reply.value.None? {
        return Ok(0);
      }
      var parsed := ParseScore(reply.value.value);
      if parsed.Err? {
        return Ok(0);
      }
      return Ok(parsed.value);
    }
  }

  // ---------------------------------------------------------------------------
  // The module-level scorer

  /** Python truthiness of an optional string argument. */
  predicate IsGiven(o: Option<string>) {
    o.Some? && o.value != ""
  }

  predicate IsWebLink(path: string) {
    StartsWith(path, "http://") || StartsWith(path, "https://")
  }

  /** Where `initialize_resume_scorer` loads the resume from. */
  datatype Source = FromUrl(url: string) | FromPdf(path: string) | FromText(text: string) | NoSource

  /** Lines 100-107. */
  function ResumeSource(resumePath: Option<string>, resumeUrl: Option<string>, resumeText: Option<string>): Source {
    if IsGiven(resumeUrl) || (IsGiven(resumePath) && IsWebLink(resumePath.value)) then
      FromUrl(if IsGiven(resumeUrl) then resumeUrl.value else resumePath.value)
    else if IsGiven(resumePath) then FromPdf(resumePath.value)
    else if IsGiven(resumeText) then FromText(resumeText.value)
    else NoSource
  }

  /** The precedence, read from the choice back to the arguments: a link wins
      over a path, a path over text; a path is fetched only when no link is
      given and it starts with "http://" or "https://"; text is used only when
      neither a link nor a path is given; nothing is loaded only when nothing is. */
  lemma SourcePrecedence(resumePath: Option<string>, resumeUrl: Option<string>, resumeText: Option<string>)
    ensures match ResumeSource(resumePath, resumeUrl, resumeText)
      case FromUrl(u) =>
        (IsGiven(resumeUrl) && u == resumeUrl.value)
        || (!IsGiven(resumeUrl) && IsGiven(resumePath) && u == resumePath.value && IsWebLink(u))
      case FromPdf(p) => !IsGiven(resumeUrl) && IsGiven(resumePath) && p == resumePath.value && !IsWebLink(p)
      case FromText(t) => !IsGiven(resumeUrl) && !IsGiven(resumePath) && IsGiven(resumeText) && t == resumeText.value
      case NoSource => !IsGiven(resumeUrl) && !IsGiven(resumePath) && !IsGiven(resumeText)
  {
  }

  /** The resume a source gives, or None when loading it fails. */
  function LoadedText(source: Source, readPdf: PdfSource, fetchPdf: PdfSource): Option<string> {
    match source
    case FromUrl(u) =>
      if fetchPdf(RawUrl(u)).Ok? then Some(Strip(PagesText(fetchPdf(RawUrl(u)).value))) else None
    case FromPdf(p) =>
      if readPdf(p).Ok? then Some(Strip(PagesText(readPdf(p).value))) else None
    case FromText(t) => Some(Strip(t))
    case NoSource => None
  }

  /** The global `resume_scorer`. */
  class ScorerRegistry {
    var scorer: ResumeScorer?

    constructor ()
      ensures scorer == null
    {
      scorer := null;
    }

    /** `initialize_resume_scorer(resume_path, resume_url, resume_text)`. The
        new scorer is installed before the resume is loaded, so a failed load
        leaves a scorer without a resume in place; an empty API key fails
        before anything changes. */
    method InitializeResumeScorer(apiKey: string, resumePath: Option<string>, resumeUrl: Option<string>,
                                  resumeText: Option<string>, readPdf: PdfSource, fetchPdf: PdfSource)
      returns (r: Result<ResumeScorer, Exc>)
      modifies this
      ensures apiKey == "" ==> r == Err(ValueError("GOOGLE_GEMINI_API_KEY environment variable not set!"))
                               && scorer == old(scorer)
      ensures apiKey != "" ==>
        var source := ResumeSource(resumePath, resumeUrl, resumeText);
        && scorer != null && fresh(scorer)
        && scorer.resumeText == LoadedText(source, readPdf, fetchPdf)
        && (r.Ok? <==> source.NoSource? || LoadedText(source, readPdf, fetchPdf).Some?)
        && (r.Ok? ==> r.value == scorer)
    {
      if apiKey == "" {
        return Err(ValueError("GOOGLE_GEMINI_API_KEY environment variable not set!"));
      }
      var s := new ResumeScorer();
      scorer := s;
      var loaded := s.LoadFrom(ResumeSource(resumePath, resumeUrl, resumeText), readPdf, fetchPdf);
      if loaded.Err? {
        return Err(loaded.error);
      }
      return Ok(s);
    }

    /** `get_job_score(title, description, company)`, given the model's reply:
        0 without a scorer, otherwise the scorer's answer, whose ValueError
        for a missing resume is not caught. */
    method GetJobScore(jobTitle: string, jobDescription: string, companyName: string,
                       reply: Result<Option<string>, string>)
      returns (r: Result<int, Exc>)
      ensures scorer == null ==> r == Ok(0)
      ensures scorer != null ==> r == ScoreReply(scorer.resumeText, reply)
      ensures r.Ok? ==> 0 <= r.value <= 100
    {
      if scorer == null {
        return Ok(0);
      }
      r := scorer.ScoreJobMatch(jobTitle, jobDescription, companyName, reply);
    }
  }
}
