/**
 * The OpenAI rewrite of a Yelp answer in the persona's voice, and the persona-framed
 * fallback used whenever no rewrite is available. The completion service is an input: a
 * function from the prompt sent to the outcome of the call, a timeout being one outcome.
 */
module OpenAi {
  import opened Wrappers
  import opened Strings
  import opened Personas

  const ClipLength: nat := 480
  const DefaultFallbackText := "Lining up a few spots for you."
  const TimeoutMessage := "rewrite-timeout"
  const UnknownErrorText := "Unknown OpenAI error"

  /**
   * What a call to the completion service gave: a completion, whose first choice carries
   * optional content; a rejection, with the error's message when it has one; or the
   * 4.5-second timer winning the race.
   */
  datatype CompletionOutcome =
    | Completed(content: Option<string>)
    | Rejected(message: Option<string>)
    | TimedOut

  /** The error event reported when the call does not complete. */
  datatype ApiError = ApiError(personaId: string, isTimeout: bool, error: string)

  /**
   * The result of one rewrite: the text returned, the prompt sent to the service (None
   * when the service is not called) and the error event reported (None when there is none).
   */
  datatype OpenAiRewrite = OpenAiRewrite(text: string, sent: Option<string>, failure: Option<ApiError>)

  /** The text part of the fallback: the trimmed answer, or the default line, clipped to 480 characters plus "...". */
  function FallbackBody(rawResponse: string): (body: string)
    ensures body != ""
    ensures |body| <= ClipLength + 3
  {
    var trimmed := if Trim(rawResponse) != "" then Trim(rawResponse) else DefaultFallbackText;
    if |trimmed| > ClipLength then trimmed[..ClipLength] + "..." else trimmed
  }

  /** `buildPersonaFallback`. */
  function BuildPersonaFallback(personaId: string, rawResponse: string): string {
    GetPersona(personaId).name + " take: " + FallbackBody(rawResponse)
  }

  /**
   * The fallback names the persona, then gives the trimmed answer whole when it has at
   * most 480 characters, its first 480 characters and "..." when it is longer, and the
   * default line when the answer is blank.
   */
  lemma FallbackContents(personaId: string, rawResponse: string)
    ensures var f := BuildPersonaFallback(personaId, rawResponse);
      var head := GetPersona(personaId).name + " take: ";
      var body := f[|head|..];
      var t := Trim(rawResponse);
      && |head| < |f| && f[..|head|] == head
      && (t == "" ==> body == DefaultFallbackText)
      && (t != "" && |t| <= ClipLength ==> body == t)
      && (|t| > ClipLength ==> |body| == ClipLength + 3 && body[..ClipLength] == t[..ClipLength]
                                && body[ClipLength..] == "...")
  {
    var head := GetPersona(personaId).name + " take: ";
    var f := BuildPersonaFallback(personaId, rawResponse);
    assert f == head + FallbackBody(rawResponse);
    assert f[|head|..] == FallbackBody(rawResponse);
  }

  /** The message of the error a failed call throws: the timer rejects with 'rewrite-timeout'. */
  function FailureMessage(outcome: CompletionOutcome): Option<string>
    requires !outcome.Completed?
  {
    if outcome.TimedOut? then Some(TimeoutMessage) else outcome.message
  }

  /**
   * `rewriteWithOpenAI`: without an API key the fallback, with no call; otherwise the prompt
   * goes to the service, a completion whose trimmed content is non-empty is the answer, and
   * every other outcome gives the fallback, a failed call also reporting an error event.
   */
  function RewriteWithOpenAi(personaId: string, originalQuery: string, rawResponse: string, hasReservableSpot: bool,
                             apiKey: Option<string>, service: string -> CompletionOutcome): OpenAiRewrite
  {
    var fallback := BuildPersonaFallback(personaId, rawResponse);
    if !Truthy(apiKey) then OpenAiRewrite(fallback, None, None)
    else
      var prompt := BuildRewritePrompt(personaId, originalQuery, rawResponse, hasReservableSpot);
      var outcome := service(prompt);
      match outcome
      case Completed(content) =>
        var rewritten := if content.Some? then Trim(content.value) else "";
        OpenAiRewrite(if rewritten != "" then rewritten else fallback, Some(prompt), None)
      case _ =>
        var message := FailureMessage(outcome);
        var event := ApiError(personaId, message == Some(TimeoutMessage),
                              if Truthy(message) then message.value else UnknownErrorText);
        OpenAiRewrite(fallback, Some(prompt), Some(event))
  }

  /** Without an API key the service is never called: the result is the fallback whatever the service would do. */
  lemma NoKeyNoCall(personaId: string, originalQuery: string, rawResponse: string, hasReservableSpot: bool,
                    apiKey: Option<string>, s1: string -> CompletionOutcome, s2: string -> CompletionOutcome)
    requires !Truthy(apiKey)
    ensures RewriteWithOpenAi(personaId, originalQuery, rawResponse, hasReservableSpot, apiKey, s1)
         == RewriteWithOpenAi(personaId, originalQuery, rawResponse, hasReservableSpot, apiKey, s2)
    ensures RewriteWithOpenAi(personaId, originalQuery, rawResponse, hasReservableSpot, apiKey, s1)
         == OpenAiRewrite(BuildPersonaFallback(personaId, rawResponse), None, None)
  {
  }

  /** With a key, the persona's rewrite prompt is what is sent. */
  lemma KeySendsPrompt(personaId: string, originalQuery: string, rawResponse: string, hasReservableSpot: bool,
                       apiKey: Option<string>, service: string -> CompletionOutcome)
    requires Truthy(apiKey)
    ensures RewriteWithOpenAi(personaId, originalQuery, rawResponse, hasReservableSpot, apiKey, service).sent
         == Some(BuildRewritePrompt(personaId, originalQuery, rawResponse, hasReservableSpot))
  {
  }

  /**
   * The answer is the trimmed completion exactly when the call completed with content
   * that is not blank; in every other case it is the fallback. Either way it is not empty.
   */
  lemma RewriteAnswer(personaId: string, originalQuery: string, rawResponse: string, hasReservableSpot: bool,
                      apiKey: Option<string>, service: string -> CompletionOutcome)
    ensures var r := RewriteWithOpenAi(personaId, originalQuery, rawResponse, hasReservableSpot, apiKey, service);
      var outcome := service(BuildRewritePrompt(personaId, originalQuery, rawResponse, hasReservableSpot));
      var used := Truthy(apiKey) && outcome.Completed? && outcome.content.Some? && Trim(outcome.content.value) != "";
      && r.text != ""
      && (used ==> r.text == Trim(outcome.content.value))
      && (!used ==> r.text == BuildPersonaFallback(personaId, rawResponse))
  {
  }

  /**
   * An error event is reported exactly when the call was made and did not complete; it
   * says timeout exactly when the error's message is 'rewrite-timeout', as it is for the
   * timer, and carries 'Unknown OpenAI error' when the error has no message.
   */
  lemma RewriteFailureEvent(personaId: string, originalQuery: string, rawResponse: string, hasReservableSpot: bool,
                            apiKey: Option<string>, service: string -> CompletionOutcome)
    ensures var r := RewriteWithOpenAi(personaId, originalQuery, rawResponse, hasReservableSpot, apiKey, service);
      var outcome := service(BuildRewritePrompt(personaId, originalQuery, rawResponse, hasReservableSpot));
      && (r.failure.Some? <==> Truthy(apiKey) && !outcome.Completed?)
      && (r.failure.Some? ==>
            && r.failure.value.personaId == personaId
            && (r.failure.value.isTimeout <==> outcome.TimedOut? || outcome.message == Some(TimeoutMessage))
            && r.failure.value.error == (if outcome.TimedOut? then TimeoutMessage
                                         else if Truthy(outcome.message) then outcome.message.value
                                         else UnknownErrorText))
  {
  }
}
