/**
 * `ChatDevService`: asks the ChatDev AI bridge to run a workflow and reads
 * a trading action and a sentiment out of the answer's text.
 *
 * The bridge is an oracle `post` from the request (workflow, prompt,
 * variables) to its reply; a reply that cannot be had (the request fails,
 * the status code is not a success, the body is not JSON) is `Threw` with
 * the exception's message. Whether the bridge is enabled is the parameter
 * `enabled`, and the clock is `now`. Scores are reals.
 */
module ChatDevServices {
  import opened Common
  import opened Text

  /** `ProviderAnalysisResult`: one provider's answer inside a consensus. */
  datatype ProviderAnalysisResult = ProviderAnalysisResult(
    providerName: string,
    score: real,
    action: string,
    summary: string,
    reasoning: string)

  /**
   * `AiAnalysisResult`. An unset `AnalyzedAt` is `None`; an unset score is
   * 0 and an unset detail list is empty.
   */
  datatype AiAnalysisResult = AiAnalysisResult(
    summary: string,
    recommendedAction: string,
    sentimentScore: real,
    analyzedAt: Option<int>,
    providerDetails: seq<ProviderAnalysisResult>)

  /** What the bridge gives back. */
  datatype BridgeReply =
    | Reply(status: string, result: Option<string>, error: Option<string>)
    | NoBody
    | Threw(message: string)

  /** The actions the parser can recognise. */
  predicate IsParsedAction(a: string)
  {
    a == "BUY" || a == "SELL" || a == "PANIC" || a == "HOLD"
  }

  /**
   * `ParseAction`: the first of BUY, SELL and PANIC that the upper-cased
   * text contains, else HOLD; no text is HOLD.
   */
  function ParseAction(text: Option<string>): (r: string)
    ensures IsParsedAction(r)
    ensures text.None? ==> r == "HOLD"
    ensures text.Some? && Contains(Upper(text.value), "BUY") ==> r == "BUY"
  {
    if text.None? then "HOLD"
    else
      var upper := Upper(text.value);
      if Contains(upper, "BUY") then "BUY"
      else if Contains(upper, "SELL") then "SELL"
      else if Contains(upper, "PANIC") then "PANIC"
      else "HOLD"
  }

  /**
   * A text that speaks of a panic sale never gives PANIC: SELL is checked
   * first and "PANIC SELL" contains it.
   */
  lemma PanicSellIsSell(text: string)
    requires Contains(Upper(text), "PANIC SELL")
    ensures ParseAction(Some(text)) == "BUY" || ParseAction(Some(text)) == "SELL"
  {
    assert "PANIC SELL" == "PANIC " + "SELL";
    ContainsTail(Upper(text), "PANIC ", "SELL");
  }

  /** The action does not depend on the case of the text. */
  lemma ActionIgnoresCase(text: string)
    ensures ParseAction(Some(Upper(text))) == ParseAction(Some(text))
  {
    UpperIdempotent(text);
  }

  /**
   * `ParseSentiment`: 0.8 when the upper-cased text says POSITIVE or
   * BULLISH, else -0.8 when it says NEGATIVE or BEARISH, else 0; no text
   * is 0.
   */
  function ParseSentiment(text: Option<string>): (r: real)
    ensures r == 0.8 || r == -0.8 || r == 0.0
    ensures text.None? ==> r == 0.0
  {
    if text.None? then 0.0
    else
      var upper := Upper(text.value);
      if Contains(upper, "POSITIVE") || Contains(upper, "BULLISH") then 0.8
      else if Contains(upper, "NEGATIVE") || Contains(upper, "BEARISH") then -0.8
      else 0.0
  }

  /** A positive word wins over a negative one in the same text. */
  lemma PositiveWins(text: string)
    requires Contains(Upper(text), "BULLISH") || Contains(Upper(text), "POSITIVE")
    ensures ParseSentiment(Some(text)) == 0.8
  {
  }

  /** The sentiment does not depend on the case of the text. */
  lemma SentimentIgnoresCase(text: string)
    ensures ParseSentiment(Some(Upper(text))) == ParseSentiment(Some(text))
  {
    UpperIdempotent(text);
  }

  const DisabledSummary := "AI Bridge is disabled by configuration."
  const NoSummary := "No summary provided by ChatDev."
  const BridgeErrorPrefix := "AI Bridge Error: "
  const WorkflowFailedPrefix := "ChatDev workflow failed: "

  /** A result that only carries a summary and an action. */
  function Plain(summary: string, action: string): (r: AiAnalysisResult)
    ensures r.summary == summary && r.recommendedAction == action
    ensures r.sentimentScore == 0.0 && r.analyzedAt.None? && r.providerDetails == []
  {
    AiAnalysisResult(summary, action, 0.0, None, [])
  }

  /** The message of the exception a reply turns into, or none for a successful reply. */
  function FailureMessage(reply: BridgeReply): (r: Option<string>)
    ensures r.None? <==> reply.Reply? && reply.status == "success"
  {
    match reply
    case Reply(status, _, error) =>
      if status == "success" then None
      else Some(WorkflowFailedPrefix + (if error.Some? then error.value else ""))
    case NoBody => Some(WorkflowFailedPrefix)
    case Threw(message) => Some(message)
  }

  /**
   * `RunWorkflowAsync`. Disabled, it answers HOLD with a fixed summary
   * without asking the bridge. A successful reply gives its text as the
   * summary (or a fixed one when there is none), the parsed action and
   * sentiment, and the time. Anything else is caught and answered with HOLD
   * and the error in the summary.
   */
  function RunWorkflow(enabled: bool, workflowYaml: string, taskPrompt: string, variables: Option<map<string, string>>,
                       post: (string, string, Option<map<string, string>>) -> BridgeReply, now: int): (r: AiAnalysisResult)
    ensures !enabled ==> r == Plain(DisabledSummary, "HOLD")
    ensures IsParsedAction(r.recommendedAction)
    ensures r.analyzedAt.Some? <==> enabled && FailureMessage(post(workflowYaml, taskPrompt, variables)).None?
    ensures enabled && FailureMessage(post(workflowYaml, taskPrompt, variables)).Some? ==>
              r == Plain(BridgeErrorPrefix + FailureMessage(post(workflowYaml, taskPrompt, variables)).value, "HOLD")
  {
    if !enabled then Plain(DisabledSummary, "HOLD")
    else
      var reply := post(workflowYaml, taskPrompt, variables);
      var failure := FailureMessage(reply);
      if failure.Some? then Plain(BridgeErrorPrefix + failure.value, "HOLD")
      else
        var text := reply.result;
        AiAnalysisResult(if text.Some? then text.value else NoSummary, ParseAction(text), ParseSentiment(text), Some(now), [])
  }

  /** A successful reply is read through the two parsers. */
  lemma SuccessfulReply(workflowYaml: string, taskPrompt: string, variables: Option<map<string, string>>,
                        post: (string, string, Option<map<string, string>>) -> BridgeReply, now: int)
    requires post(workflowYaml, taskPrompt, variables).Reply? && post(workflowYaml, taskPrompt, variables).status == "success"
    ensures var text := post(workflowYaml, taskPrompt, variables).result;
      var r := RunWorkflow(true, workflowYaml, taskPrompt, variables, post, now);
      r.recommendedAction == ParseAction(text) && r.sentimentScore == ParseSentiment(text) &&
      r.summary == (if text.Some? then text.value else NoSummary) && r.analyzedAt == Some(now)
  {
  }

  /** Disabled, the answer is the same whatever the bridge would have said: it is not asked. */
  lemma DisabledAsksNothing(workflowYaml: string, taskPrompt: string, variables: Option<map<string, string>>,
                            post: (string, string, Option<map<string, string>>) -> BridgeReply,
                            other: (string, string, Option<map<string, string>>) -> BridgeReply, now: int)
    ensures RunWorkflow(false, workflowYaml, taskPrompt, variables, post, now) ==
            RunWorkflow(false, workflowYaml, taskPrompt, variables, other, now)
  {
  }

  /** `AnalyzeMarketSentimentAsync`: the sentiment workflow run on the news summary. */
  function AnalyzeMarketSentiment(enabled: bool, newsSummary: string,
                                  post: (string, string, Option<map<string, string>>) -> BridgeReply, now: int): (r: AiAnalysisResult)
    ensures !enabled ==> r == Plain(DisabledSummary, "HOLD")
    ensures IsParsedAction(r.recommendedAction)
  {
    RunWorkflow(enabled, "sentiment_analysis.yaml", newsSummary, None, post, now)
  }
}
