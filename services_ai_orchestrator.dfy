/**
 * `AiOrchestratorService`: asks every AI provider about a text and forms a
 * consensus from the answers that came back.
 *
 * A provider is known by its name; what it answers is an oracle `ask` from
 * the provider and the text to its result, to no result, or to the
 * exception it threw. Scores are reals. The clock is `now`.
 */
module AiOrchestratorServices {
  import opened Common
  import opened Listing
  import opened Text
  import opened ChatDevServices

  /** What one provider gave: a result, nothing, or an exception with its message. */
  datatype Answer = Answered(result: AiAnalysisResult) | NoResult | Failed(message: string)

  /** The tuple the loop collects: the provider and its answer. */
  datatype Outcome = Outcome(provider: string, answer: Answer)

  /** The answers of the providers, in the order the providers are listed. */
  function Outcomes(providers: seq<string>, text: string, ask: (string, string) -> Answer): (r: seq<Outcome>)
    ensures |r| == |providers|
    ensures forall i :: 0 <= i < |providers| ==> r[i] == Outcome(providers[i], ask(providers[i], text))
  {
    seq(|providers|, i requires 0 <= i < |providers| => Outcome(providers[i], ask(providers[i], text)))
  }

  predicate Succeeded(o: Outcome)
  {
    o.answer.Answered?
  }

  /** The sentiment scores of the successful answers, in order. */
  function SuccessScores(outcomes: seq<Outcome>): (r: seq<real>)
    ensures |r| == CountWhere(outcomes, Succeeded)
  {
    if |outcomes| == 0 then []
    else if Succeeded(outcomes[0]) then [outcomes[0].answer.result.sentimentScore] + SuccessScores(outcomes[1..])
    else SuccessScores(outcomes[1..])
  }

  /** The index of the first successful answer. */
  function FirstSuccess(outcomes: seq<Outcome>): (r: nat)
    requires CountWhere(outcomes, Succeeded) > 0
    ensures r < |outcomes| && Succeeded(outcomes[r])
    ensures forall j :: 0 <= j < r ==> !Succeeded(outcomes[j])
  {
    if Succeeded(outcomes[0]) then 0
    else
      var r := FirstSuccess(outcomes[1..]) + 1;
      assert forall j :: 1 <= j < |outcomes| ==> outcomes[j] == outcomes[1..][j - 1];
      r
  }

  const NoProviderAnswered := "Hiçbir AI servisi başarıyla yanıt vermedi. Hatalar: "

  /** `"{name}: {error?.Message}"`: a missing exception prints as nothing. */
  function ErrorLine(o: Outcome): string
  {
    o.provider + ": " + (if o.answer.Failed? then o.answer.message else "")
  }

  function ErrorLines(outcomes: seq<Outcome>): (r: seq<string>)
    ensures |r| == |outcomes| && forall i :: 0 <= i < |outcomes| ==> r[i] == ErrorLine(outcomes[i])
  {
    seq(|outcomes|, i requires 0 <= i < |outcomes| => ErrorLine(outcomes[i]))
  }

  /** One provider's line of the details: its own result, or score 0 and action ERROR. */
  function Detail(o: Outcome, text: string): (d: ProviderAnalysisResult)
    ensures d.providerName == o.provider && d.reasoning == text
    ensures Succeeded(o) ==> d.score == o.answer.result.sentimentScore && d.action == o.answer.result.recommendedAction
    ensures !Succeeded(o) ==> d.score == 0.0 && d.action == "ERROR"
  {
    match o.answer
    case Answered(result) => ProviderAnalysisResult(o.provider, result.sentimentScore, result.recommendedAction, result.summary, text)
    case NoResult => ProviderAnalysisResult(o.provider, 0.0, "ERROR", "Hata: ", text)
    case Failed(message) => ProviderAnalysisResult(o.provider, 0.0, "ERROR", "Hata: " + message, text)
  }

  function Details(outcomes: seq<Outcome>, text: string): (r: seq<ProviderAnalysisResult>)
    ensures |r| == |outcomes| && forall i :: 0 <= i < |outcomes| ==> r[i] == Detail(outcomes[i], text)
  {
    seq(|outcomes|, i requires 0 <= i < |outcomes| => Detail(outcomes[i], text))
  }

  /**
   * The action for a consensus score, as the service writes it: BUY above
   * 0.5, SELL below -0.3, and the PANIC SELL test below -0.7 only after
   * that, where it can no longer hold.
   */
  function ConsensusAction(avg: real): (r: string)
    ensures r == "BUY" <==> avg > 0.5
    ensures r == "SELL" <==> avg < -0.3
  {
    if avg > 0.5 then "BUY"
    else if avg < -0.3 then "SELL"
    else if avg < -0.7 then "PANIC SELL"
    else "HOLD"
  }

  /** No score gives PANIC SELL: a score below -0.7 is below -0.3 and is a SELL. */
  lemma PanicSellUnreachable(avg: real)
    ensures ConsensusAction(avg) != "PANIC SELL"
    ensures avg < -0.7 ==> ConsensusAction(avg) == "SELL"
  {
  }

  /** The thresholds as evidently intended: the panic test before the plain sale. */
  function ConsensusActionIntended(avg: real): (r: string)
    ensures r == "BUY" <==> avg > 0.5
    ensures r == "PANIC SELL" <==> avg < -0.7
    ensures r == "SELL" <==> -0.7 <= avg < -0.3
    ensures r == "HOLD" <==> -0.3 <= avg <= 0.5
  {
    if avg > 0.5 then "BUY"
    else if avg < -0.7 then "PANIC SELL"
    else if avg < -0.3 then "SELL"
    else "HOLD"
  }

  /** The two agree except on the scores below -0.7. */
  lemma IntendedAgreesAbovePanic(avg: real)
    ensures avg >= -0.7 <==> ConsensusActionIntended(avg) == ConsensusAction(avg)
  {
  }

  /**
   * The consensus of the answers: an error listing every provider when none
   * succeeded; else one detail per provider, the mean of the successful
   * scores, its action, and the first successful summary.
   */
  function Consensus(outcomes: seq<Outcome>, text: string, now: int): (r: Result<AiAnalysisResult>)
    ensures r.Failure? <==> CountWhere(outcomes, Succeeded) == 0
    ensures r.Failure? ==> r.error == NoProviderAnswered + Join(" | ", ErrorLines(outcomes))
  {
    if CountWhere(outcomes, Succeeded) == 0 then Failure(NoProviderAnswered + Join(" | ", ErrorLines(outcomes)))
    else
      var avg := Mean(SuccessScores(outcomes));
      var first := outcomes[FirstSuccess(outcomes)].answer.result;
      Success(AiAnalysisResult(first.summary, ConsensusAction(avg), avg, Some(now), Details(outcomes, text)))
  }

  /** A reached consensus has one detail per provider; failed providers score 0 with action ERROR. */
  lemma ConsensusDetails(outcomes: seq<Outcome>, text: string, now: int)
    requires CountWhere(outcomes, Succeeded) > 0
    ensures var r := Consensus(outcomes, text, now).value;
      |r.providerDetails| == |outcomes| &&
      (forall k :: 0 <= k < |outcomes| ==> r.providerDetails[k].providerName == outcomes[k].provider) &&
      (forall k :: 0 <= k < |outcomes| && !Succeeded(outcomes[k]) ==>
         r.providerDetails[k].score == 0.0 && r.providerDetails[k].action == "ERROR") &&
      (forall k :: 0 <= k < |outcomes| && Succeeded(outcomes[k]) ==>
         r.providerDetails[k].score == outcomes[k].answer.result.sentimentScore)
  {
    assert Consensus(outcomes, text, now).value.providerDetails == Details(outcomes, text);
  }

  /**
   * A reached consensus scores the mean of the successful scores, takes
   * its action from that score (never PANIC SELL), and the summary of the
   * first provider that answered.
   */
  lemma ConsensusMean(outcomes: seq<Outcome>, text: string, now: int)
    requires CountWhere(outcomes, Succeeded) > 0
    ensures var r := Consensus(outcomes, text, now).value;
      r.sentimentScore == Mean(SuccessScores(outcomes)) &&
      r.recommendedAction == ConsensusAction(r.sentimentScore) && r.recommendedAction != "PANIC SELL" &&
      r.summary == outcomes[FirstSuccess(outcomes)].answer.result.summary && r.analyzedAt == Some(now)
  {
    PanicSellUnreachable(Mean(SuccessScores(outcomes)));
  }

  /** With every successful score between -1 and 1, so is their mean. */
  lemma MeanScoreInRange(outcomes: seq<Outcome>)
    requires CountWhere(outcomes, Succeeded) > 0
    requires forall k :: 0 <= k < |outcomes| && Succeeded(outcomes[k]) ==> -1.0 <= outcomes[k].answer.result.sentimentScore <= 1.0
    ensures -1.0 <= Mean(SuccessScores(outcomes)) <= 1.0
  {
    ScoresInRange(outcomes);
    MeanBounds(SuccessScores(outcomes), -1.0, 1.0);
  }

  lemma {:induction false} ScoresInRange(outcomes: seq<Outcome>)
    requires forall k :: 0 <= k < |outcomes| && Succeeded(outcomes[k]) ==> -1.0 <= outcomes[k].answer.result.sentimentScore <= 1.0
    ensures forall i :: 0 <= i < |SuccessScores(outcomes)| ==> -1.0 <= SuccessScores(outcomes)[i] <= 1.0
    decreases |outcomes|
  {
    if |outcomes| > 0 {
      assert forall k :: 1 <= k < |outcomes| ==> outcomes[k] == outcomes[1..][k - 1];
      ScoresInRange(outcomes[1..]);
    }
  }

  /** `AnalyzeTextAsync`: every provider is asked in turn, then the answers are combined. */
  method AnalyzeText(providers: seq<string>, text: string, ask: (string, string) -> Answer, now: int)
    returns (r: Result<AiAnalysisResult>)
    ensures r == Consensus(Outcomes(providers, text, ask), text, now)
    ensures r.Failure? <==> forall i :: 0 <= i < |providers| ==> !ask(providers[i], text).Answered?
  {
    var results: seq<Outcome> := [];
    for i := 0 to |providers|
      invariant results == Outcomes(providers[..i], text, ask)
    {
      results := results + [Outcome(providers[i], ask(providers[i], text))];
    }
    assert providers[..|providers|] == providers;
    r := Consensus(results, text, now);
    NoneSucceeded(results);
  }

  /** `GetMarketSentimentAsync`: the consensus about the fixed market-analysis text for a symbol. */
  method MarketSentiment(providers: seq<string>, symbol: string, ask: (string, string) -> Answer, now: int)
    returns (r: Result<AiAnalysisResult>)
    ensures r == Consensus(Outcomes(providers, "Piyasa analizi: " + symbol, ask), "Piyasa analizi: " + symbol, now)
    ensures r.Success? ==> r.value.recommendedAction != "PANIC SELL" &&
                           forall k :: 0 <= k < |r.value.providerDetails| ==>
                             r.value.providerDetails[k].reasoning == "Piyasa analizi: " + symbol
  {
    r := AnalyzeText(providers, "Piyasa analizi: " + symbol, ask, now);
    if r.Success? {
      var outcomes := Outcomes(providers, "Piyasa analizi: " + symbol, ask);
      ConsensusMean(outcomes, "Piyasa analizi: " + symbol, now);
    }
  }

  /** No answer succeeded exactly when the count of successes is zero. */
  lemma NoneSucceeded(outcomes: seq<Outcome>)
    ensures CountWhere(outcomes, Succeeded) == 0 <==> forall i :: 0 <= i < |outcomes| ==> !Succeeded(outcomes[i])
  {
    if CountWhere(outcomes, Succeeded) == 0 {
      forall i | 0 <= i < |outcomes| ensures !Succeeded(outcomes[i]) {
        CountWhereZero(outcomes, Succeeded, i);
      }
    } else {
      var i := FirstSuccess(outcomes);
    }
  }
}
