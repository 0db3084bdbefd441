/**
  Generation Orchestrator: the POST /generate-script handler. It scrapes the
  article when a URL is given, computes the word budget, composes the prompt,
  asks the text-generation service for a script and picks the script text out of
  whatever shape of reply comes back.

  The page fetch and the generation service are parameters: `fetch` says what
  fetching a URL yields and `service` what the service answers to a prompt.
*/
module GenerationOrchestrator {
  import opened Wrappers
  import opened Strings
  import opened DurationEstimator
  import opened ContentExtractor
  import opened PromptComposer

  /** The reply of the generation service, every level of which may be missing. */
  datatype Part = Part(text: Option<string>)
  datatype Content = Content(parts: Option<seq<Part>>)
  datatype Candidate = Candidate(content: Option<Content>)

  /** `response.text`: no such method, a method that returns a value (possibly
      undefined), or a method that throws (as it does for a blocked reply). */
  datatype TextAccessor = NoAccessor | Returns(value: Option<string>) | Throws

  datatype GenResponse = GenResponse(text: TextAccessor, candidates: Option<seq<Candidate>>)
  datatype GenResult = GenResult(response: Option<GenResponse>)

  /** What awaiting generateContent gives: a rejection or a result. */
  datatype ServiceReply = ServiceFailed | Replied(result: GenResult)

  /** The handler's HTTP answer. */
  datatype HttpResponse =
    | ScriptReply(script: string, targetWords: int, duration: Option<int>)
    | ErrorReply(status: int, error: string)

  const NoScriptPlaceholder: string := "⚠️ No script generated."
  const NoUrlPlaceholder: string := "No URL provided."
  const GenerationFailedMessage: string := "Failed to generate script"

  /** Calling `result?.response?.text?.()` throws. */
  predicate AccessorThrows(result: GenResult) {
    result.response.Some? && result.response.value.text.Throws?
  }

  /** The value of `result?.response?.text?.()` when it does not throw. */
  function AccessorText(result: GenResult): (t: Option<string>)
    ensures t.Some? ==> result.response.Some? && result.response.value.text == Returns(t)
    ensures result.response.Some? && result.response.value.text.Returns? ==> t == result.response.value.text.value
  {
    match result.response
    case None => None
    case Some(response) =>
      match response.text
      case Returns(value) => value
      case _ => None
  }

  /** `result?.response?.candidates?.[0]?.content?.parts?.[0]?.text`. */
  function FirstCandidateText(result: GenResult): (t: Option<string>)
    ensures t.Some? <==>
      && result.response.Some?
      && result.response.value.candidates.Some?
      && |result.response.value.candidates.value| > 0
      && result.response.value.candidates.value[0].content.Some?
      && result.response.value.candidates.value[0].content.value.parts.Some?
      && |result.response.value.candidates.value[0].content.value.parts.value| > 0
      && result.response.value.candidates.value[0].content.value.parts.value[0].text.Some?
    ensures t.Some? ==> t == result.response.value.candidates.value[0].content.value.parts.value[0].text
  {
    if result.response.None? then None
    else
      var candidates := result.response.value.candidates;
      if candidates.None? || |candidates.value| == 0 then None
      else
        var content := candidates.value[0].content;
        if content.None? then None
        else
          var parts := content.value.parts;
          if parts.None? || |parts.value| == 0 then None
          else parts.value[0].text
  }

  /** The first truthy value among `options`, else `fallback`: `a || b || … || fallback`. */
  function FirstTruthy(options: seq<Option<string>>, fallback: string): (r: string)
    ensures (exists k :: 0 <= k < |options| && Truthy(options[k]) && r == options[k].value) || r == fallback
    ensures (forall k :: 0 <= k < |options| ==> !Truthy(options[k])) ==> r == fallback
    ensures forall k :: 0 <= k < |options| && Truthy(options[k]) && (forall j :: 0 <= j < k ==> !Truthy(options[j])) ==>
      r == options[k].value
  {
    if options == [] then fallback
    else if Truthy(options[0]) then options[0].value
    else
      var r := FirstTruthy(options[1..], fallback);
      assert forall k :: 0 <= k < |options| - 1 ==> options[1..][k] == options[k + 1];
      r
  }

  /** The script: the accessor's text if truthy, else the first candidate's first
      part text if truthy, else the placeholder. */
  function ExtractScript(result: GenResult): (script: string)
    requires !AccessorThrows(result)
    ensures script != []
    ensures script == FirstTruthy([AccessorText(result), FirstCandidateText(result)], NoScriptPlaceholder)
  {
    var direct := AccessorText(result);
    var fromCandidate := FirstCandidateText(result);
    if Truthy(direct) then direct.value
    else if Truthy(fromCandidate) then fromCandidate.value
    else NoScriptPlaceholder
  }

  /** The three outcomes of the fallback chain, each with its exact condition. */
  lemma ExtractScriptCases(result: GenResult)
    requires !AccessorThrows(result)
    ensures Truthy(AccessorText(result)) ==> ExtractScript(result) == AccessorText(result).value
    ensures !Truthy(AccessorText(result)) && Truthy(FirstCandidateText(result)) ==>
      ExtractScript(result) == FirstCandidateText(result).value
    ensures ExtractScript(result) == NoScriptPlaceholder <==>
      (!Truthy(AccessorText(result)) && !Truthy(FirstCandidateText(result)))
      || (Truthy(AccessorText(result)) && AccessorText(result).value == NoScriptPlaceholder)
      || (!Truthy(AccessorText(result)) && Truthy(FirstCandidateText(result))
          && FirstCandidateText(result).value == NoScriptPlaceholder)
  {
  }

  /** The article excerpt the prompt receives: scraped when a URL is given. */
  function ArticleTextFor(url: Option<string>, fetch: string -> FetchOutcome): (text: string)
    ensures 0 < |text| <= MaxChars
    ensures !Truthy(url) ==> text == NoUrlPlaceholder
    ensures Truthy(url) ==> text == ScrapeResult(fetch(url.value))
  {
    if Truthy(url) then ScrapeResult(fetch(url.value)) else NoUrlPlaceholder
  }

  /** The prompt the handler sends for a request. */
  function PromptFor(req: ScriptRequest, fetch: string -> FetchOutcome): string {
    ComposePrompt(InputsFor(req, ArticleTextFor(req.url, fetch)))
  }

  /** The request fails exactly when the service rejects or the text accessor throws. */
  predicate GenerationFails(reply: ServiceReply) {
    reply.ServiceFailed? || AccessorThrows(reply.result)
  }

  /** POST /generate-script. */
  function HandleGenerateScript(req: ScriptRequest, fetch: string -> FetchOutcome,
                                service: string -> ServiceReply): (resp: HttpResponse)
    ensures resp.ErrorReply? <==> GenerationFails(service(PromptFor(req, fetch)))
    ensures resp.ErrorReply? ==> resp.status == 500 && resp.error == GenerationFailedMessage
    ensures resp.ScriptReply? ==>
      && resp.script != []
      && resp.script == ExtractScript(service(PromptFor(req, fetch)).result)
      && resp.targetWords == TargetWords(EffectiveDuration(req.duration), EffectiveLanguage(req))
      && MinTarget <= resp.targetWords <= MaxTarget
      && resp.duration == req.duration
  {
    var articleText := ArticleTextFor(req.url, fetch);
    var targetWords := GetTargetWords(EffectiveDuration(req.duration), EffectiveLanguage(req));
    var prompt := ComposePrompt(InputsFor(req, articleText));
    match service(prompt)
    case ServiceFailed => ErrorReply(500, GenerationFailedMessage)
    case Replied(result) =>
      if AccessorThrows(result) then ErrorReply(500, GenerationFailedMessage)
      else ScriptReply(ExtractScript(result), targetWords, req.duration)
  }

  /** The prompt sent for a request states the defaulted duration, and the word
      budget and its 90% minimum twice each. */
  lemma SentPromptStatesBudget(req: ScriptRequest, fetch: string -> FetchOutcome)
    ensures var t := TargetWords(EffectiveDuration(req.duration), EffectiveLanguage(req));
      && Contains(PromptFor(req, fetch), IntToDecimal(EffectiveDuration(req.duration)))
      && OccursTwice(PromptFor(req, fetch), IntToDecimal(t))
      && OccursTwice(PromptFor(req, fetch), IntToDecimal(MinWords(t)))
  {
    var p := InputsFor(req, ArticleTextFor(req.url, fetch));
    PromptStatesBudgetTwice(p);
    PromptStatesInputs(p);
  }

  /** Without a duration (or with 0) the prompt asks for a 60-second script, and
      the budget is the 60-second one. */
  lemma MissingDurationAsksForSixtySeconds(req: ScriptRequest, fetch: string -> FetchOutcome)
    requires req.duration == None || req.duration == Some(0)
    ensures Contains(PromptFor(req, fetch), "60")
    ensures OccursTwice(PromptFor(req, fetch), IntToDecimal(TargetWords(60, EffectiveLanguage(req))))
  {
    assert EffectiveDuration(req.duration) == 60;
    assert IntToDecimal(60) == "60" by {
      assert NatToDecimal(60) == NatToDecimal(6) + [DigitChar(0)];
    }
    SentPromptStatesBudget(req, fetch);
  }

  /** A failed page fetch is never an error: whatever the fetch does, a service
      that returns a readable reply yields a script. */
  lemma FetchFailureIsNotAnError(req: ScriptRequest, fetch: string -> FetchOutcome,
                                 service: string -> ServiceReply)
    requires forall prompt :: service(prompt).Replied? && !AccessorThrows(service(prompt).result)
    ensures HandleGenerateScript(req, fetch, service).ScriptReply?
  {
  }
}
