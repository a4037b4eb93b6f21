/** Two concrete runs of the review action, with the outbound calls fixed. */
module Scenarios {
  import opened Wrappers
  import opened Actions

  const Octo := RawInput("octo", "demo", Integer(42))
  const SampleDiff := "--- a/f\n+++ b/f\n@@ -1 +1 @@\n-old\n+new\n"

  /** A 404 from the API ends the run with the status and its text; the model is never called. */
  lemma NotFoundRun(body: string, invoke: string -> LlmOutcome)
    ensures var run := ReviewPullRequest(Octo, _ => Response(404, "Not Found", body), invoke);
      && run.result == Error("GitHub API error: 404 Not Found")
      && run.trace == Trace(Some("https://api.github.com/repos/octo/demo/pulls/42"), None)
  {
    var url := "https://api.github.com/repos/octo/demo/pulls/42";
    assert Decimal.IntToString(42) == "42" by {
      assert Decimal.NatToString(4) == "4";
    }
    assert PullRequestUrl("octo", "demo", 42) == url by {
      assert ReposEndpoint + "octo" + "/" + "demo" + "/pulls/" + "42" == url;
    }
    assert StatusErrorMessage(404, "Not Found") == "GitHub API error: 404 Not Found" by {
      assert Decimal.NatToString(404) == "404" by {
        assert Decimal.NatToString(4) == "4";
        assert Decimal.NatToString(40) == "40";
      }
    }
  }

  /** A 200 with a diff and a reply object with content yields that content as feedback. */
  lemma ReviewedRun()
    ensures var run := ReviewPullRequest(
        Octo, _ => Response(200, "OK", SampleDiff), _ => Obj(Some("## Style\n...\n"), "[object Object]"));
      && run.result == Feedback("## Style\n...\n")
      && run.trace.prompted == Some(ReviewPrompt(SampleDiff))
  {
  }
}
