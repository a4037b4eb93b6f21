/**
 * The pull-request review server action: validate the {owner, repo, prNumber}
 * triple, fetch the pull request's diff from the GitHub REST API, have a chat
 * model review it, and collapse every failure into one `{error}` result.
 *
 * The two outbound calls are parameters: `network` maps the URL requested to
 * the outcome of that request, `invoke` maps the prompt sent to the outcome of
 * the model call. Everything around them is modelled as written.
 */
module Actions {
  import opened Wrappers
  import Decimal

  // ---------------------------------------------------------------------------
  // What a `catch` block receives
  // ---------------------------------------------------------------------------

  /** A thrown value: an `Error` instance with its message, or anything else. */
  datatype Thrown = ErrorObj(message: string) | NonError

  /**
   * `throw new Error(error instanceof Error ? error.message : fallback)`:
   * the message of an `Error` survives; anything else becomes the fallback.
   */
  function Rethrow(e: Thrown, fallback: string): (r: Thrown)
    ensures r.ErrorObj?
    ensures e.ErrorObj? ==> r == e
    ensures e.NonError? ==> r.message == fallback
  {
    match e
    case ErrorObj(m) => ErrorObj(m)
    case NonError => ErrorObj(fallback)
  }

  // ---------------------------------------------------------------------------
  // Input validation (the zod schema `reviewInputSchema`)
  // ---------------------------------------------------------------------------

  /**
   * The raw `prNumber`: an integral number, a number that is not integral
   * (a fraction or an infinity, with its sign), or something that is not a
   * number at all (including NaN).
   */
  datatype RawNumber = Integer(n: int) | NonInteger(positive: bool) | NotNumber

  datatype RawInput = RawInput(owner: string, repo: string, prNumber: RawNumber)

  /** One schema violation, with the name of the field it concerns. */
  datatype Issue = TooSmall(path: string) | NotInteger(path: string) | InvalidType(path: string)

  /** A request that passed validation. */
  datatype ReviewRequest = ReviewRequest(owner: string, repo: string, prNumber: int)

  /** `owner` and `repo` non-empty (no trimming), `prNumber` an integer above 0. */
  function IsValidInput(input: RawInput): (ok: bool)
    ensures ok <==> |input.owner| >= 1 && |input.repo| >= 1
                    && match input.prNumber { case Integer(n) => n >= 1 case _ => false }
  {
    input.owner != "" && input.repo != "" && input.prNumber.Integer? && input.prNumber.n > 0
  }

  function IssuePaths(issues: seq<Issue>): set<string> {
    set i | i in issues :: i.path
  }

  function StringIssues(path: string, s: string): seq<Issue> {
    if s == "" then [TooSmall(path)] else []
  }

  /**
   * Issues of `z.number().int().positive()` as zod 3 reports them: a
   * non-number (NaN included) stops at the type check; for any other number,
   * infinities included, both refinements are checked and both may fail.
   */
  function NumberIssues(path: string, x: RawNumber): seq<Issue> {
    match x
    case NotNumber => [InvalidType(path)]
    case NonInteger(positive) => [NotInteger(path)] + (if positive then [] else [TooSmall(path)])
    case Integer(n) => if n > 0 then [] else [TooSmall(path)]
  }

  /** Every field is checked, in schema order; all violations are collected. */
  function Issues(input: RawInput): (r: seq<Issue>)
    ensures r == [] <==> IsValidInput(input)
    ensures "owner" in IssuePaths(r) <==> input.owner == ""
    ensures "repo" in IssuePaths(r) <==> input.repo == ""
    ensures "prNumber" in IssuePaths(r) <==> !(input.prNumber.Integer? && input.prNumber.n > 0)
    ensures InvalidType("prNumber") in r <==> input.prNumber.NotNumber?
    ensures NotInteger("prNumber") in r <==> input.prNumber.NonInteger?
    ensures TooSmall("prNumber") in r <==>
              (input.prNumber.Integer? && input.prNumber.n <= 0) ||
              (input.prNumber == NonInteger(false))
  {
    var r := StringIssues("owner", input.owner) + StringIssues("repo", input.repo)
      + NumberIssues("prNumber", input.prNumber);
    assert forall i :: i in r <==>
      i in StringIssues("owner", input.owner) || i in StringIssues("repo", input.repo)
      || i in NumberIssues("prNumber", input.prNumber);
    r
  }

  function IssueText(i: Issue): string {
    match i
    case TooSmall(_) => "too small"
    case NotInteger(_) => "expected an integer"
    case InvalidType(_) => "expected a number"
  }

  /**
   * The validation error's message. The library's own wording is not part of
   * this model; this rendering names each offending field and what is wrong.
   */
  function IssuesMessage(issues: seq<Issue>): (m: string)
    ensures |issues| > 0 ==> |m| > 0 && m[|m| - 1] == ' '
  {
    if issues == [] then ""
    else issues[0].path + ": " + IssueText(issues[0]) + "; " + IssuesMessage(issues[1..])
  }

  /** `reviewInputSchema.parse(input)`: the request, or a thrown validation error. */
  function Validate(input: RawInput): (r: Result<ReviewRequest, Thrown>)
    ensures r.Ok? <==> IsValidInput(input)
    ensures r.Ok? ==> r.value == ReviewRequest(input.owner, input.repo, input.prNumber.n)
    ensures r.Err? ==> r.error.ErrorObj? && |r.error.message| > 0
  {
    var issues := Issues(input);
    if issues == [] then Ok(ReviewRequest(input.owner, input.repo, input.prNumber.n))
    else Err(ErrorObj(IssuesMessage(issues)))
  }

  // ---------------------------------------------------------------------------
  // The state threaded through the stages
  // ---------------------------------------------------------------------------

  datatype ReviewState = ReviewState(
    owner: string,
    repo: string,
    prNumber: int,
    diff: Option<string>,
    feedback: Option<string>)

  /** The state built from a validated request: the triple, nothing derived yet. */
  function InitialState(req: ReviewRequest): (s: ReviewState)
    ensures s.owner == req.owner && s.repo == req.repo && s.prNumber == req.prNumber
    ensures s.diff.None? && s.feedback.None?
  {
    ReviewState(req.owner, req.repo, req.prNumber, None, None)
  }

  // ---------------------------------------------------------------------------
  // Fetching the diff (`fetchPullRequestDiff`)
  // ---------------------------------------------------------------------------

  const ReposEndpoint := "https://api.github.com/repos/"
  const FetchFailedFallback := "Failed to fetch the pull request diff"

  /** The resource URL; owner and repo are inserted without any escaping. */
  function PullRequestUrl(owner: string, repo: string, prNumber: int): (url: string)
    ensures var head := ReposEndpoint + owner + "/";
      var tail := "/pulls/" + Decimal.IntToString(prNumber);
      && |url| == |head| + |repo| + |tail|
      && url[..|head|] == head
      && url[|head|..|head| + |repo|] == repo
      && url[|head| + |repo|..] == tail
  {
    ReposEndpoint + owner + "/" + repo + "/pulls/" + Decimal.IntToString(prNumber)
  }

  /** Splits at the first '/', dropping it; None when there is none. */
  function SplitAtSlash(s: string): Option<(string, string)> {
    if s == [] then None
    else if s[0] == '/' then Some(([], s[1..]))
    else match SplitAtSlash(s[1..])
      case None => None
      case Some(parts) => Some(([s[0]] + parts.0, parts.1))
  }

  /** Reads owner, repo and number back out of a pull-request URL. */
  function ParsePullRequestUrl(url: string): Option<(string, string, int)> {
    if |url| < |ReposEndpoint| || url[..|ReposEndpoint|] != ReposEndpoint then None
    else match SplitAtSlash(url[|ReposEndpoint|..])
      case None => None
      case Some(first) =>
        match SplitAtSlash(first.1)
        case None => None
        case Some(second) =>
          if |second.1| < 6 || second.1[..6] != "pulls/" then None
          else match Decimal.ParseInt(second.1[6..])
            case None => None
            case Some(n) => Some((first.0, second.0, n))
  }

  lemma {:induction false} SplitAtSlashOf(a: string, b: string)
    requires '/' !in a
    ensures SplitAtSlash(a + "/" + b) == Some((a, b))
  {
    var s := a + "/" + b;
    if a == [] {
      assert s[1..] == b;
    } else {
      assert s[0] == a[0];
      assert s[1..] == a[1..] + "/" + b;
      SplitAtSlashOf(a[1..], b);
      assert [a[0]] + a[1..] == a;
    }
  }

  /** When neither owner nor repo holds a '/', the URL determines the request. */
  lemma PullRequestUrlRoundTrip(owner: string, repo: string, prNumber: int)
    requires '/' !in owner && '/' !in repo
    ensures ParsePullRequestUrl(PullRequestUrl(owner, repo, prNumber)) == Some((owner, repo, prNumber))
  {
    var digits := Decimal.IntToString(prNumber);
    var tail := "pulls/" + digits;
    var rest := owner + "/" + (repo + "/" + tail);
    var url := PullRequestUrl(owner, repo, prNumber);
    assert url == ReposEndpoint + rest;
    assert url[..|ReposEndpoint|] == ReposEndpoint;
    assert url[|ReposEndpoint|..] == rest;
    SplitAtSlashOf(owner, repo + "/" + tail);
    SplitAtSlashOf(repo, tail);
    assert tail[..6] == "pulls/" && tail[6..] == digits;
    Decimal.ParseIntToString(prNumber);
  }

  /**
   * Without escaping, a '/' inside owner or repo moves a path segment: two
   * different requests then fetch the same URL.
   */
  lemma PullRequestUrlUnescaped(owner: string, middle: string, repo: string, prNumber: int)
    ensures PullRequestUrl(owner + "/" + middle, repo, prNumber) == PullRequestUrl(owner, middle + "/" + repo, prNumber)
  {
  }

  /**
   * What a request to the API yields: a response (status, status text, body),
   * or a thrown value from the transport or from reading the body.
   */
  datatype FetchOutcome = Response(status: nat, statusText: string, body: string) | Transport(thrown: Thrown)

  /** An ok status, section 2.2.3 of the WHATWG Fetch Standard: 200 to 299 inclusive. */
  function OkStatus(status: nat): (ok: bool)
    ensures ok <==> status / 100 == 2
  {
    200 <= status <= 299
  }

  /** The message names the status, which reads back exactly, then the status text. */
  function StatusErrorMessage(status: nat, statusText: string): (m: string)
    ensures var lead := "GitHub API error: ";
      && |m| > |lead| + |statusText|
      && m[..|lead|] == lead
      && m[|m| - |statusText| - 1..] == " " + statusText
      && var digits := m[|lead|..|m| - |statusText| - 1];
         && Decimal.AllDigits(digits) && (|digits| > 1 ==> digits[0] != '0')
         && Decimal.ParseInt(digits) == Some(status as int)
  {
    var lead := "GitHub API error: ";
    var digits := Decimal.NatToString(status);
    assert Decimal.ParseInt(digits) == Some(status as int) by {
      Decimal.ParseIntToString(status);
    }
    var m := lead + digits + " " + statusText;
    assert m[..|lead|] == lead;
    assert m[|m| - |statusText| - 1..] == " " + statusText;
    assert m[|lead|..|m| - |statusText| - 1] == digits;
    m
  }

  /**
   * One GET of the pull request's URL. On an ok status only `diff` changes, to
   * the body; any failure is rethrown as an `Error`.
   */
  function FetchPullRequestDiff(state: ReviewState, network: string -> FetchOutcome): (r: Result<ReviewState, Thrown>)
    ensures var out := network(PullRequestUrl(state.owner, state.repo, state.prNumber));
      && (r.Ok? <==> out.Response? && OkStatus(out.status))
      && (r.Ok? ==> r.value == state.(diff := Some(out.body)))
      && (out.Response? && !OkStatus(out.status) ==>
            r == Err(ErrorObj(StatusErrorMessage(out.status, out.statusText))))
      && (out.Transport? && out.thrown.ErrorObj? ==> r == Err(out.thrown))
      && (out.Transport? && out.thrown.NonError? ==> r == Err(ErrorObj(FetchFailedFallback)))
  {
    var attempt: Result<string, Thrown> :=
      match network(PullRequestUrl(state.owner, state.repo, state.prNumber))
      case Transport(e) => Err(e)
      case Response(status, statusText, body) =>
        if !OkStatus(status) then Err(ErrorObj(StatusErrorMessage(status, statusText)))
        else Ok(body);
    match attempt
    case Ok(diff) => Ok(state.(diff := Some(diff)))
    case Err(e) => Err(Rethrow(e, FetchFailedFallback))
  }

  // ---------------------------------------------------------------------------
  // Analyzing the diff (`analyzeDiff`)
  // ---------------------------------------------------------------------------

  const PromptPrefix := "You are an AI code reviewer. Review the following diff:\n\n```diff\n"
  const PromptSuffix := "\n```\n\nGive categorized feedback on Style, Security, Performance, and Design. Format your response in Markdown."
  /** Thrown by the guard at app/actions.ts:50. */
  const NoDiffMessage := "No diff to analyze"
  const AnalyzeFailedFallback := "Failed to analyze the pull request"

  /** The review instruction: the diff verbatim inside a fenced `diff` block. */
  function ReviewPrompt(diff: string): (p: string)
    ensures |p| == |PromptPrefix| + |diff| + |PromptSuffix|
    ensures p[..|PromptPrefix|] == PromptPrefix
    ensures p[|PromptPrefix|..|PromptPrefix| + |diff|] == diff
    ensures p[|PromptPrefix| + |diff|..] == PromptSuffix
  {
    PromptPrefix + diff + PromptSuffix
  }

  /** The text between the prompt's fixed prefix and suffix, if it has both. */
  function DiffOfPrompt(prompt: string): Option<string> {
    if |prompt| >= |PromptPrefix| + |PromptSuffix|
       && prompt[..|PromptPrefix|] == PromptPrefix
       && prompt[|prompt| - |PromptSuffix|..] == PromptSuffix
    then Some(prompt[|PromptPrefix|..|prompt| - |PromptSuffix|])
    else None
  }

  /** Removing the fixed prefix and suffix recovers the diff exactly. */
  lemma ReviewPromptRoundTrip(diff: string)
    ensures DiffOfPrompt(ReviewPrompt(diff)) == Some(diff)
  {
  }

  /** Different diffs give different prompts. */
  lemma ReviewPromptInjective(d1: string, d2: string)
    ensures ReviewPrompt(d1) == ReviewPrompt(d2) ==> d1 == d2
  {
    ReviewPromptRoundTrip(d1);
    ReviewPromptRoundTrip(d2);
  }

  /** What a model call yields: a bare string, an object, or a thrown value. */
  datatype LlmOutcome =
    | Text(text: string)
    | Obj(content: Option<string>, rendered: string)
    | Raised(thrown: Thrown)

  /** `typeof res === "string" ? res : res?.content || String(res)` for a reply. */
  function NormalizeReply(reply: LlmOutcome): (content: string)
    requires !reply.Raised?
    ensures reply.Text? ==> content == reply.text
    ensures reply.Obj? && reply.content.Some? && reply.content.value != "" ==> content == reply.content.value
    ensures reply.Obj? && (reply.content.None? || reply.content.value == "") ==> content == reply.rendered
  {
    match reply
    case Text(s) => s
    case Obj(c, rendered) => if c.Some? && c.value != "" then c.value else rendered
  }

  /** The guard `!state.diff` fails: a diff is present and non-empty. */
  function HasDiff(state: ReviewState): (ok: bool)
    // the two falsy values `state.diff` can hold are undefined and ""
    ensures !ok <==> state.diff == None || state.diff == Some("")
  {
    state.diff.Some? && state.diff.value != ""
  }

  /**
   * Without a non-empty diff, fail before the model is consulted; otherwise
   * send one prompt and set only `feedback`, to the normalized reply.
   */
  function AnalyzeDiff(state: ReviewState, invoke: string -> LlmOutcome): (r: Result<ReviewState, Thrown>)
    ensures !HasDiff(state) ==> r == Err(ErrorObj(NoDiffMessage))
    ensures HasDiff(state) ==>
      var out := invoke(ReviewPrompt(state.diff.value));
      && (r.Ok? <==> !out.Raised?)
      && (r.Ok? ==> r.value == state.(feedback := Some(NormalizeReply(out))))
      && (out.Raised? && out.thrown.ErrorObj? ==> r == Err(out.thrown))
      && (out.Raised? && out.thrown.NonError? ==> r == Err(ErrorObj(AnalyzeFailedFallback)))
  {
    if !HasDiff(state) then Err(ErrorObj(NoDiffMessage))
    else
      match invoke(ReviewPrompt(state.diff.value))
      case Raised(e) => Err(Rethrow(e, AnalyzeFailedFallback))
      case reply => Ok(state.(feedback := Some(NormalizeReply(reply))))
  }

  // ---------------------------------------------------------------------------
  // The server action (`reviewPullRequest`)
  // ---------------------------------------------------------------------------

  /** What the caller receives: exactly one of feedback or an error message. */
  datatype ReviewResult = Feedback(feedback: string) | Error(error: string)

  /** The outbound calls made: the URL fetched and the prompt sent, if any. */
  datatype Trace = Trace(fetched: Option<string>, prompted: Option<string>)

  datatype Run = Run(result: ReviewResult, trace: Trace)

  const UnexpectedError := "An unexpected error occurred"

  /** The final `catch`: an `Error`'s message, or a generic one. */
  function Collapse(e: Thrown): (r: ReviewResult)
    ensures r.Error?
    ensures e.ErrorObj? ==> r.error == e.message
    ensures e.NonError? ==> r.error == UnexpectedError
  {
    match e
    case ErrorObj(m) => Error(m)
    case NonError => Error(UnexpectedError)
  }

  /** validate, fetch, analyze; the first failure ends the run as `Error`. */
  function ReviewPullRequest(input: RawInput, network: string -> FetchOutcome, invoke: string -> LlmOutcome): (run: Run)
    // invalid input: a validation error, and neither outbound call is made
    ensures !IsValidInput(input) ==> run == Run(Error(IssuesMessage(Issues(input))), Trace(None, None))
    ensures IsValidInput(input) ==>
      var url := PullRequestUrl(input.owner, input.repo, input.prNumber.n);
      var fetched := network(url);
      // exactly one fetch, of the pull request's URL
      && run.trace.fetched == Some(url)
      // a status outside 200..299: its message unchanged, and no model call
      && (fetched.Response? && !OkStatus(fetched.status) ==>
            run == Run(Error(StatusErrorMessage(fetched.status, fetched.statusText)), Trace(Some(url), None)))
      // a transport failure: its message, or the fetch fallback
      && (fetched.Transport? ==>
            run == Run(Error(if fetched.thrown.ErrorObj? then fetched.thrown.message else FetchFailedFallback),
                       Trace(Some(url), None)))
      // an empty diff: rejected without a model call
      && (fetched.Response? && OkStatus(fetched.status) && fetched.body == "" ==>
            run == Run(Error(NoDiffMessage), Trace(Some(url), None)))
      // a non-empty diff: exactly one model call, with the diff in the prompt
      && (fetched.Response? && OkStatus(fetched.status) && fetched.body != "" ==>
            var prompt := ReviewPrompt(fetched.body);
            var reply := invoke(prompt);
            && run.trace == Trace(Some(url), Some(prompt))
            && (reply.Raised? ==>
                  run.result == Error(if reply.thrown.ErrorObj? then reply.thrown.message else AnalyzeFailedFallback))
            && (!reply.Raised? ==> run.result == Feedback(NormalizeReply(reply))))
  {
    match Validate(input)
    case Err(e) => Run(Collapse(e), Trace(None, None))
    case Ok(req) =>
      var initial := InitialState(req);
      var url := PullRequestUrl(initial.owner, initial.repo, initial.prNumber);
      match FetchPullRequestDiff(initial, network)
      case Err(e) => Run(Collapse(e), Trace(Some(url), None))
      case Ok(withDiff) =>
        var prompted := if HasDiff(withDiff) then Some(ReviewPrompt(withDiff.diff.value)) else None;
        match AnalyzeDiff(withDiff, invoke)
        case Err(e) => Run(Collapse(e), Trace(Some(url), prompted))
        case Ok(reviewed) => Run(Feedback(reviewed.feedback.value), Trace(Some(url), prompted))
  }

  /**
   * No stage raises anything but an `Error`, so the final catch's generic
   * message is never produced by the action itself: it comes back only when
   * an outbound call raised an `Error` carrying exactly that text.
   */
  lemma UnexpectedErrorNeverProduced(input: RawInput, network: string -> FetchOutcome, invoke: string -> LlmOutcome)
    requires forall url :: network(url) != Transport(ErrorObj(UnexpectedError))
    requires forall prompt :: invoke(prompt) != Raised(ErrorObj(UnexpectedError))
    ensures ReviewPullRequest(input, network, invoke).result != Error(UnexpectedError)
  {
  }
}
