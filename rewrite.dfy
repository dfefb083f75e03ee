/**
 * The rewrite front end: the provider flag chooses between the on-device Apple model and
 * OpenAI; an Apple answer is used when it is a non-empty string, and every other Apple
 * outcome except an escaping exception falls through to the OpenAI rewrite.
 * The platform name, the Apple module and its session are inputs, each step of the
 * session being an outcome that returns a value or throws.
 */
module Rewrite {
  import opened Wrappers
  import opened Strings
  import opened Personas
  import opened OpenAi

  datatype Provider = OpenAiProvider | AppleProvider

  /** A call into foreign code: it returns a value or throws. */
  datatype Call<T> = Returns(value: T) | Throws

  /**
   * What `generateText` resolved to: a string; an object whose `text` field is a string
   * (Some) or is not (None); or any other value.
   */
  datatype Generated = GeneratedString(text: string) | GeneratedObject(textField: Option<string>) | GeneratedOther

  /** `session.dispose`: absent, present, or present and throwing. */
  datatype Dispose = NoDispose | Disposes | DisposeThrows

  /** A constructed session: `configure` takes the instructions, `generateText` the prompt. */
  datatype AppleSession = AppleSession(configure: string -> Call<()>, generate: string -> Call<Generated>, dispose: Dispose)

  /**
   * The module `require` returned. `session` is None when the `AppleLLMSession` export is
   * missing, and otherwise what its constructor does; `availability` is None when the
   * `isFoundationModelsEnabled` export is missing, and otherwise what awaiting it gives.
   */
  datatype AppleModule = AppleModule(session: Option<Call<AppleSession>>, availability: Option<Call<string>>)

  /** What `tryAppleRewrite` settles to: an answer that may be null, or an exception that escapes it. */
  datatype AppleOutcome = AppleAnswer(answer: Option<string>) | AppleEscapes

  /** What `rewriteResponse` settles to: the text, or an exception that escapes it. */
  datatype RewriteResult = Rewritten(text: string) | RewriteEscapes

  /** `getRewriteProviderInternal`: the flag, 'openai' when it is unset or empty, lower-cased and compared with 'apple'. */
  function RewriteProvider(flag: Option<string>): (p: Provider)
    ensures p == AppleProvider <==> Truthy(flag) && Lower(flag.value) == "apple"
  {
    var setting := if Truthy(flag) then flag.value else "openai";
    assert |Lower("openai")| != |"apple"|;
    if Lower(setting) == "apple" then AppleProvider else OpenAiProvider
  }

  /**
   * `typeof result === 'string' ? result : result?.text ?? result` is a string exactly
   * when the result is a string or an object whose `text` is a string.
   */
  function GeneratedText(g: Generated): (r: Option<string>)
    ensures r.Some? <==> g.GeneratedString? || (g.GeneratedObject? && g.textField.Some?)
  {
    match g
    case GeneratedString(s) => Some(s)
    case GeneratedObject(t) => t
    case GeneratedOther => None
  }

  /** The body of the `try`: configure with the instructions, generate from the prompt, trim a string result; a throw gives null. */
  function SessionAnswer(session: AppleSession, instructions: string, prompt: string): Option<string> {
    match session.configure(instructions)
    case Throws => None
    case Returns(_) =>
      match session.generate(prompt)
      case Throws => None
      case Returns(g) =>
        var text := GeneratedText(g);
        if text.Some? then Some(Trim(text.value)) else None
  }

  /** Whether the guards before the session all pass: iOS, the module and both exports, and 'available'. */
  predicate AppleReady(platform: string, apple: Option<AppleModule>) {
    && platform == "ios"
    && apple.Some?
    && apple.value.session.Some?
    && apple.value.availability.Some?
    && apple.value.availability.value == Returns("available")
  }

  /**
   * `tryAppleRewrite`. The constructor runs outside the `try`, and `dispose` runs in the
   * `finally`: an exception from either escapes.
   */
  function TryAppleRewrite(personaId: string, originalQuery: string, rawResponse: string, hasReservableSpot: bool,
                           platform: string, apple: Option<AppleModule>): AppleOutcome
  {
    if platform != "ios" || apple.None? then AppleAnswer(None)
    else if apple.value.session.None? || apple.value.availability.None? then AppleAnswer(None)
    else if apple.value.availability.value != Returns("available") then AppleAnswer(None)
    else
      match apple.value.session.value
      case Throws => AppleEscapes
      case Returns(session) =>
        var prompt := BuildRewritePrompt(personaId, originalQuery, rawResponse, hasReservableSpot);
        var answer := SessionAnswer(session, GetPersona(personaId).rewrite, prompt);
        if session.dispose == DisposeThrows then AppleEscapes else AppleAnswer(answer)
  }

  /** `rewriteResponse`: a truthy Apple answer when the provider is Apple, the OpenAI rewrite otherwise. */
  function RewriteResponse(personaId: string, originalQuery: string, rawResponse: string, hasReservableSpot: bool,
                           flag: Option<string>, platform: string, apple: Option<AppleModule>,
                           apiKey: Option<string>, service: string -> CompletionOutcome): RewriteResult
  {
    var viaOpenAi := Rewritten(RewriteWithOpenAi(personaId, originalQuery, rawResponse, hasReservableSpot, apiKey, service).text);
    if RewriteProvider(flag) == OpenAiProvider then viaOpenAi
    else
      match TryAppleRewrite(personaId, originalQuery, rawResponse, hasReservableSpot, platform, apple)
      case AppleEscapes => RewriteEscapes
      case AppleAnswer(answer) => if Truthy(answer) then Rewritten(answer.value) else viaOpenAi
  }

  /** An exception escapes the Apple path exactly when the guards pass and the constructor or `dispose` throws. */
  lemma AppleEscapesExactly(personaId: string, originalQuery: string, rawResponse: string, hasReservableSpot: bool,
                            platform: string, apple: Option<AppleModule>)
    ensures TryAppleRewrite(personaId, originalQuery, rawResponse, hasReservableSpot, platform, apple).AppleEscapes?
        <==> AppleReady(platform, apple)
             && (apple.value.session.value.Throws? || apple.value.session.value.value.dispose == DisposeThrows)
  {
  }

  /**
   * The Apple path answers null when any guard fails, and when configuring or generating
   * throws or the generated value is not text, unless `dispose` throws.
   */
  lemma AppleNullCases(personaId: string, originalQuery: string, rawResponse: string, hasReservableSpot: bool,
                       platform: string, apple: Option<AppleModule>)
    ensures !AppleReady(platform, apple)
        ==> TryAppleRewrite(personaId, originalQuery, rawResponse, hasReservableSpot, platform, apple) == AppleAnswer(None)
    ensures AppleReady(platform, apple) && apple.value.session.value.Returns? ==>
      var session := apple.value.session.value.value;
      var prompt := BuildRewritePrompt(personaId, originalQuery, rawResponse, hasReservableSpot);
      var failed := session.configure(GetPersona(personaId).rewrite).Throws? || session.generate(prompt).Throws?
                    || GeneratedText(session.generate(prompt).value).None?;
      (failed && session.dispose != DisposeThrows)
        ==> TryAppleRewrite(personaId, originalQuery, rawResponse, hasReservableSpot, platform, apple) == AppleAnswer(None)
  {
  }

  /**
   * An Apple answer that is a string is the trimmed text generated from the persona's
   * rewrite instructions and the rewrite prompt.
   */
  lemma AppleAnswerTrimmed(personaId: string, originalQuery: string, rawResponse: string, hasReservableSpot: bool,
                           platform: string, apple: Option<AppleModule>)
    requires TryAppleRewrite(personaId, originalQuery, rawResponse, hasReservableSpot, platform, apple).AppleAnswer?
    requires TryAppleRewrite(personaId, originalQuery, rawResponse, hasReservableSpot, platform, apple).answer.Some?
    ensures AppleReady(platform, apple) && apple.value.session.value.Returns?
    ensures var session := apple.value.session.value.value;
      var prompt := BuildRewritePrompt(personaId, originalQuery, rawResponse, hasReservableSpot);
      && session.configure(GetPersona(personaId).rewrite).Returns?
      && session.generate(prompt).Returns?
      && GeneratedText(session.generate(prompt).value).Some?
      && TryAppleRewrite(personaId, originalQuery, rawResponse, hasReservableSpot, platform, apple).answer.value
         == Trim(GeneratedText(session.generate(prompt).value).value)
  {
  }

  /** With the OpenAI provider the Apple path is never tried: the result is the OpenAI rewrite, whatever the platform and module. */
  lemma OpenAiProviderSkipsApple(personaId: string, originalQuery: string, rawResponse: string, hasReservableSpot: bool,
                                 flag: Option<string>, platform: string, apple: Option<AppleModule>,
                                 apiKey: Option<string>, service: string -> CompletionOutcome)
    requires RewriteProvider(flag) == OpenAiProvider
    ensures RewriteResponse(personaId, originalQuery, rawResponse, hasReservableSpot, flag, platform, apple, apiKey, service)
         == Rewritten(RewriteWithOpenAi(personaId, originalQuery, rawResponse, hasReservableSpot, apiKey, service).text)
  {
  }

  /**
   * With the Apple provider: a non-empty Apple answer is returned as it is; a null or
   * empty one falls through to OpenAI; an escaping exception escapes the rewrite too.
   */
  lemma AppleFallThrough(personaId: string, originalQuery: string, rawResponse: string, hasReservableSpot: bool,
                         flag: Option<string>, platform: string, apple: Option<AppleModule>,
                         apiKey: Option<string>, service: string -> CompletionOutcome)
    requires RewriteProvider(flag) == AppleProvider
    ensures var a := TryAppleRewrite(personaId, originalQuery, rawResponse, hasReservableSpot, platform, apple);
      var r := RewriteResponse(personaId, originalQuery, rawResponse, hasReservableSpot, flag, platform, apple, apiKey, service);
      && (a.AppleEscapes? <==> r.RewriteEscapes?)
      && (a.AppleAnswer? && Truthy(a.answer) ==> r == Rewritten(a.answer.value))
      && (a.AppleAnswer? && !Truthy(a.answer) ==>
            r == Rewritten(RewriteWithOpenAi(personaId, originalQuery, rawResponse, hasReservableSpot, apiKey, service).text))
  {
  }

  /** Whenever the rewrite settles with a text, that text is not empty. */
  lemma RewrittenNonEmpty(personaId: string, originalQuery: string, rawResponse: string, hasReservableSpot: bool,
                          flag: Option<string>, platform: string, apple: Option<AppleModule>,
                          apiKey: Option<string>, service: string -> CompletionOutcome)
    ensures var r := RewriteResponse(personaId, originalQuery, rawResponse, hasReservableSpot, flag, platform, apple, apiKey, service);
      r.Rewritten? ==> r.text != ""
  {
    RewriteAnswer(personaId, originalQuery, rawResponse, hasReservableSpot, apiKey, service);
  }

  /** The rewrite never escapes with the OpenAI provider, nor when the Apple guards fail. */
  lemma RewriteEscapesOnlyFromApple(personaId: string, originalQuery: string, rawResponse: string, hasReservableSpot: bool,
                                    flag: Option<string>, platform: string, apple: Option<AppleModule>,
                                    apiKey: Option<string>, service: string -> CompletionOutcome)
    ensures RewriteResponse(personaId, originalQuery, rawResponse, hasReservableSpot, flag, platform, apple, apiKey, service).RewriteEscapes?
        <==> RewriteProvider(flag) == AppleProvider && AppleReady(platform, apple)
             && (apple.value.session.value.Throws? || apple.value.session.value.value.dispose == DisposeThrows)
  {
    AppleEscapesExactly(personaId, originalQuery, rawResponse, hasReservableSpot, platform, apple);
  }
}
