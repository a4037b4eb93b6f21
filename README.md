# Pull-request review action, modelled in Dafny

This project models the server action `reviewPullRequest` of a small web app
that reviews GitHub pull requests with a chat model. The action runs three
stages in order:

1. It validates the `{owner, repo, prNumber}` triple against a zod schema.
2. It fetches the pull request's diff from the GitHub REST API.
3. It sends the diff, embedded in a fixed prompt, to a chat model.

The action threads a `ReviewState` record through these stages. Each stage
returns a copy of the record with one more field set. Every failure collapses
into `{error}`; success returns `{feedback}`.

Files:

- `wrappers.dfy`: `Option` and `Result` (`Ok` / `Err`).
- `decimal.dfy`: how a template literal renders an integral number (`${n}`),
  and a parser proved to read that rendering back.
- `actions.dfy`: the action itself. It holds the validation, the state
  record, the fetch stage, the analyze stage and the orchestrator. It also
  holds the inverse functions (`ParsePullRequestUrl`, `DiffOfPrompt`) that the
  round-trip lemmas use.
- `scenarios.dfy`: two concrete runs, a 404 and a successful review.

The two outbound calls are parameters of type `string -> Outcome`:

- `network` maps the URL requested to a `FetchOutcome`: a `Response(status,
  statusText, body)` or a `Transport(thrown)` failure.
- `invoke` maps the prompt sent to an `LlmOutcome`: a bare `Text`, an `Obj`
  with an optional `content` and its string form, or a `Raised` failure.

A thrown value is a `Thrown`: either an `ErrorObj(message)` (an `Error`
instance) or a `NonError`. This is the case split the source makes with
`error instanceof Error`. The orchestrator returns a `Run`, which pairs the
`ReviewResult` (`Feedback` or `Error`, never both) with a `Trace`. The trace
records the URL fetched and the prompt sent; `None` means that call was never
made.

The orchestrator's contract lists every outcome, stated in terms of the raw
input and the two outcomes. Its contract and the stage contracts imply two
facts:

- Every stage raises only `Error` instances. So the final fallback text
  "An unexpected error occurred" is never produced by the action itself
  (`UnexpectedErrorNeverProduced`); it can come back only as the message of
  an `Error` that an outbound call raised.
- The model is never consulted unless the fetch succeeded with a non-empty
  body.

Determinism holds by construction: the action is a function of its inputs and
of the two outcome functions.

## Model

| member | source | states |
|---|---|---|
| Actions.IsValidInput | app/actions.ts:7-11 | the reference acceptance predicate: owner and repo of length at least 1 (`min(1)`, no trimming) and prNumber an integer of at least 1 (`int().positive()`); `Issues` and `Validate` are proved against it |
| Actions.Issues | app/actions.ts:7-11 | the issue list is empty exactly when the input is valid; owner (resp. repo) is flagged exactly when it is the empty string, with no trimming; prNumber gets a type issue exactly when it is not a number, an integer issue exactly when it is not integral, and a too-small issue exactly when it is a number not above 0; all three fields are checked together |
| Actions.Validate | app/actions.ts:7-11 | parsing succeeds exactly when owner and repo are non-empty and prNumber is an integer above 0, and then returns the three values unchanged; otherwise it throws an Error with a non-empty message |
| Actions.IssuesMessage | app/actions.ts:76 | the validation error's message is non-empty whenever there is an issue |
| Actions.InitialState | app/actions.ts:79-83 | the initial state copies owner, repo and prNumber, with diff and feedback absent |
| Decimal.NatToString | app/actions.ts:37 | a status renders as a non-empty string of decimal digits with no leading zero |
| Decimal.IntToString | app/actions.ts:26 | `${prNumber}` renders as '-' exactly when the number is negative, followed by a non-empty run of decimal digits with no leading zero whose value is the number's magnitude |
| Decimal.ParseIntToString | app/actions.ts:26 | the decimal rendering of the PR number reads back as that number |
| Decimal.IntToStringInjective | app/actions.ts:26 | different PR numbers render differently |
| Actions.PullRequestUrl | app/actions.ts:26 | the URL is "https://api.github.com/repos/" + owner + "/", then repo verbatim, then "/pulls/" + the decimal PR number, and nothing else |
| Actions.PullRequestUrlRoundTrip | app/actions.ts:26 | when owner and repo hold no '/', the URL "https://api.github.com/repos/" + owner + "/" + repo + "/pulls/" + number determines owner, repo and number |
| Actions.PullRequestUrlUnescaped | app/actions.ts:26 | owner and repo are inserted unescaped: moving a '/'-separated segment from owner to repo yields the same URL |
| Actions.Rethrow | app/actions.ts:42-44 | the catch rethrows an Error with the same message, and replaces any other thrown value by an Error carrying the stage's fallback message |
| Actions.OkStatus | app/actions.ts:36 | `response.ok` holds exactly for a status in the 2xx class, the ok status of section 2.2.3 of the WHATWG Fetch Standard |
| Actions.StatusErrorMessage | app/actions.ts:37 | the message is "GitHub API error: ", then the status as decimal digits with no leading zero that read back as that status, then a space and the status text verbatim |
| Actions.FetchPullRequestDiff | app/actions.ts:25-46 | exactly one request is made, to the pull request's URL; it succeeds exactly on a status in 200..299, and then only diff changes, to the body; any other status fails with "GitHub API error: " + status + " " + statusText; a transport Error keeps its message, and any other thrown value gives "Failed to fetch the pull request diff" |
| Actions.ReviewPrompt | app/actions.ts:53 | the prompt is the fixed prefix ending in an opening diff fence, then the diff verbatim, then the fixed suffix that closes the fence and asks for Style, Security, Performance and Design feedback in Markdown |
| Actions.ReviewPromptRoundTrip | app/actions.ts:53 | stripping the fixed prefix and suffix from the prompt recovers the diff exactly |
| Actions.ReviewPromptInjective | app/actions.ts:53 | different diffs give different prompts |
| Actions.NormalizeReply | app/actions.ts:64 | a bare-string reply is used unchanged, even when empty; an object with non-empty content gives that content; otherwise the object's string form is used |
| Actions.HasDiff | app/actions.ts:50 | the reference for the guard `!state.diff`: it fails exactly on the two falsy values diff can hold, absent and the empty string; `AnalyzeDiff` and `ReviewPullRequest` are stated against it |
| Actions.AnalyzeDiff | app/actions.ts:49-70 | an absent or empty diff fails with "No diff to analyze" whatever the model would answer; otherwise exactly the prompt for that diff is sent, a reply sets only feedback to the normalized reply, and a thrown Error keeps its message while any other thrown value gives "Failed to analyze the pull request" |
| Actions.Collapse | app/actions.ts:92-96 | the final catch returns an error result carrying an Error's message unchanged, or "An unexpected error occurred" for any other thrown value |
| Actions.ReviewPullRequest | app/actions.ts:73-98 | invalid input gives the validation error and makes no outbound call; a valid input fetches exactly the pull request's URL; a status outside 200..299, a transport failure or an empty body each give their error message and make no model call; a non-empty body sends exactly one prompt carrying it; the result is then the model failure's message or Feedback(normalized reply) |
| Actions.UnexpectedErrorNeverProduced | app/actions.ts:92-96 | when no outbound call raises an Error whose message is "An unexpected error occurred", the action never returns that error: every stage raises only Error instances, and neither the validation message nor the status message can equal it |
| Scenarios.NotFoundRun | app/actions.ts:36-37 | octo/demo#42 answered with 404 "Not Found" returns Error("GitHub API error: 404 Not Found") after fetching https://api.github.com/repos/octo/demo/pulls/42, and sends no prompt |
| Scenarios.ReviewedRun | app/actions.ts:89-91 | octo/demo#42 answered with 200 and a diff, and a reply object with content, returns Feedback(content) after sending the prompt for that diff |

## Left out

- The real `fetch` call, its `Accept` and `Authorization` headers, and the
  `GITHUB_TOKEN` read from the environment (app/actions.ts:29-34). Their
  outcome is the `network` parameter.
- A failure while reading the response body (`response.text()`). It reaches
  the same catch as a transport failure, so `Transport` covers it.
- The `ChatOpenAI` client, its configuration from `GAIA_MODEL`,
  `GAIA_API_KEY` and `GAIA_BASE_URL`, and `invoke` (app/actions.ts:55-63).
  Their outcome is the `invoke` parameter; a failure while building the client
  reaches the same catch as `Raised`. For such a failure the trace still
  records the prompt as sent, although the source never reaches `llm.invoke`.
- A reply whose `content` is not a string, such as an array of content parts.
  The source would return it as the feedback as it is; the model's `content`
  is a string.
- `console.error` logging, which is a diagnostic side effect only.
- `async`/`await` suspension. One call has no internal concurrency, so the
  model is straight-line.
- Actions.IssuesMessage: the model does not reproduce the text of zod's
  `ZodError` message, which the library defines. It renders each issue as
  its field name and a short description instead.
- Raw `owner` or `repo` values that are not strings. The action's declared
  input type makes them strings, and the form sends strings.
- JavaScript number semantics of `prNumber`. The raw value is an integer, a
  non-integral number (with its sign) or a non-number. Validation follows
  zod 3: an infinity is a non-integral number, and integers beyond 2^53 pass
  the integer check (zod 4 rejects both). Integers beyond 2^53
  are not distinguished. Integers of magnitude at least 10^21, which JavaScript
  renders in exponent form, are rendered in plain decimal.
- The React form and its client-side copy of the schema, and the page layout.
  These are presentation.
