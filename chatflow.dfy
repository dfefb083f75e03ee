/**
 * One chat turn of the persona screen: the user's message goes up at once, the context
 * line, persona preface and question are sent to the Yelp session, the reply is normalised,
 * rewritten in the persona's voice and filtered to the businesses it mentions, and exactly
 * one assistant message follows, or an error is shown instead.
 * Everything outside the hook is an input: the weather service, the clock and number
 * formatting, the network (a scripted one), the rewrite services and the mock reply.
 */
module ChatFlow {
  import opened Wrappers
  import opened Strings
  import opened Yelp
  import opened Booking
  import opened Entities
  import opened Personas
  import opened OpenAi
  import opened Rewrite
  import Context

  const BaseQuery := "I have 3 hours free right now. Surprise me."
  const NoResponseText := "No response text returned."
  const UnknownErrorText := "Unknown error"
  const InternalErrorText := "Yelp internal error"
  const DefaultCoordinates := Context.Coordinates(40.7128, -74.006)
  const PartSeparator := "\n\n"

  datatype Role = User | Assistant

  datatype ChatMessage = ChatMessage(role: Role, text: string, entities: Option<seq<Entity>>)

  /** The location the screen passes in: device coordinates when known, the city, the radius in miles. */
  datatype LocationData = LocationData(coords: Option<Context.Coordinates>, city: Option<string>, radius: real)

  /**
   * What the turn gets from outside the hook: the weather fetch (None when it throws), the
   * hour, the formatted time and number printing for the context line, the mock reply, the
   * rewrite step (persona, query, raw text, reservable) with the message of an exception
   * escaping it, and the shuffles behind the mock slots.
   */
  datatype Environment = Environment(
    weatherFetch: Option<Context.Weather>,
    hour: int, timeString: string, fixed4: real -> string, numText: real -> string,
    mockReply: ChatResponse,
    rewrite: (string, string, string, bool) -> RewriteResult, rewriteErrorMessage: Option<string>,
    draws: nat -> ShuffleDraw)

  /** The environment's rewrite step is `rewriteResponse` with the given provider flag, platform, Apple module, key and service. */
  ghost predicate StandardRewrite(env: Environment, flag: Option<string>, platform: string, apple: Option<AppleModule>,
                                  apiKey: Option<string>, service: string -> CompletionOutcome)
  {
    forall personaId, q, raw, reservable ::
      env.rewrite(personaId, q, raw, reservable)
      == RewriteResponse(personaId, q, raw, reservable, flag, platform, apple, apiKey, service)
  }

  /** How a turn ends: an answer with its businesses, or the error to show. */
  datatype TurnEnd = Answered(text: string, entities: seq<Entity>) | Errored(message: string)

  /** `customQuery || baseQuery`. */
  function QueryOf(customQuery: Option<string>): (q: string)
    ensures q != ""
    ensures Truthy(customQuery) ==> q == customQuery.value
    ensures !Truthy(customQuery) ==> q == BaseQuery
  {
    if Truthy(customQuery) then customQuery.value else BaseQuery
  }

  function EffectiveCoordinates(coords: Option<Context.Coordinates>): Context.Coordinates {
    if coords.Some? then coords.value else DefaultCoordinates
  }

  /** The user context sent with the query: en_US, at the device's coordinates or the default ones. */
  function UserContextOf(coords: Option<Context.Coordinates>): (ctx: UserContext)
    ensures ctx.locale == "en_US"
    ensures coords.Some? ==> ctx.latitude == coords.value.latitude && ctx.longitude == coords.value.longitude
    ensures coords.None? ==> ctx.latitude == 40.7128 && ctx.longitude == -74.006
  {
    var c := EffectiveCoordinates(coords);
    UserContext("en_US", c.latitude, c.longitude)
  }

  function ContextText(weather: Option<Context.Weather>, location: LocationData, env: Environment): string {
    Context.BuildContextString(weather, EffectiveCoordinates(location.coords), location.city, Some(location.radius),
                               env.hour, env.timeString, env.fixed4, env.numText)
  }

  /** `filter(Boolean)` on strings: the non-empty ones, in order. */
  function NonEmpty(parts: seq<string>): (r: seq<string>)
    ensures forall i :: 0 <= i < |r| ==> r[i] != ""
  {
    if parts == [] then [] else (if parts[0] != "" then [parts[0]] else []) + NonEmpty(parts[1..])
  }

  /** Every non-empty part is kept, as often as it occurs: only the empty strings are dropped. */
  lemma {:induction false} NonEmptyCounts(parts: seq<string>)
    ensures forall x :: x != "" ==> multiset(NonEmpty(parts))[x] == multiset(parts)[x]
  {
    if parts != [] {
      assert parts == [parts[0]] + parts[1..];
      NonEmptyCounts(parts[1..]);
    }
  }

  /** The filter works part by part: filtering a concatenation concatenates the filtered halves, so order is kept. */
  lemma {:induction false} NonEmptyAppend(a: seq<string>, b: seq<string>)
    ensures NonEmpty(a + b) == NonEmpty(a) + NonEmpty(b)
  {
    if a == [] {
      assert a + b == b;
    } else {
      assert (a + b)[0] == a[0] && (a + b)[1..] == a[1..] + b;
      NonEmptyAppend(a[1..], b);
    }
  }

  /** The query sent to Yelp: the non-empty ones of context, preface and question, separated by a blank line. */
  function OutboundQuery(contextText: string, preface: string, query: string): string {
    Join(NonEmpty([contextText, preface, query]), PartSeparator)
  }

  /** With a context line and a question, the query is context, preface and question, the preface left out when empty. */
  lemma OutboundQueryLayout(contextText: string, preface: string, query: string)
    requires contextText != "" && query != ""
    ensures preface != "" ==> OutboundQuery(contextText, preface, query)
                              == contextText + PartSeparator + preface + PartSeparator + query
    ensures preface == "" ==> OutboundQuery(contextText, preface, query) == contextText + PartSeparator + query
  {
    var parts := [contextText, preface, query];
    assert parts[1..] == [preface, query] && parts[1..][1..] == [query] && parts[1..][1..][1..] == [];
    assert NonEmpty([query]) == [query] by {
      assert NonEmpty([query]) == [query] + NonEmpty([query][1..]);
    }
    assert NonEmpty(parts) == [contextText] + NonEmpty([preface, query]);
    if preface != "" {
      assert NonEmpty([preface, query]) == [preface] + NonEmpty([query]);
      assert NonEmpty(parts) == [contextText, preface, query];
      JoinLast([contextText, preface, query], PartSeparator);
      JoinLast([contextText, preface], PartSeparator);
      assert [contextText, preface, query][..2] == [contextText, preface];
      assert [contextText, preface][..1] == [contextText];
    } else {
      assert NonEmpty([preface, query]) == NonEmpty([query]);
      assert NonEmpty(parts) == [contextText, query];
      JoinLast([contextText, query], PartSeparator);
      assert [contextText, query][..1] == [contextText];
    }
  }

  /** `(e as Error).message || 'Unknown error'`, shown as 'Yelp internal error' when it mentions "internal" in any case. */
  function ErrorText(message: Option<string>): (r: string)
    ensures r != ""
  {
    var msg := if Truthy(message) then message.value else UnknownErrorText;
    if Contains(Lower(msg), "internal") then InternalErrorText else msg
  }

  /** The shown error: 'Yelp internal error' for a message mentioning "internal", else the message, else 'Unknown error'. */
  lemma ErrorTextCases(message: Option<string>)
    ensures Truthy(message) && Contains(Lower(message.value), "internal") ==> ErrorText(message) == InternalErrorText
    ensures Truthy(message) && !Contains(Lower(message.value), "internal") ==> ErrorText(message) == message.value
    ensures !Truthy(message) ==> ErrorText(message) == UnknownErrorText
  {
    assert !Contains(Lower(UnknownErrorText), "internal") by {
      AbsentCharNotContained(Lower(UnknownErrorText), "internal", 'i');
    }
  }

  /** A string occurring inside an occurrence of a longer one occurs too. */
  lemma OccursInside(s: string, big: string, j: nat, off: nat, small: string)
    requires OccursAt(s, big, j) && off + |small| <= |big| && big[off..off + |small|] == small
    ensures OccursAt(s, small, j + off)
  {
    forall i | 0 <= i < |small|
      ensures s[j + off + i] == small[i]
    {
      assert s[j + off + i] == s[j..j + |big|][off + i] == big[off + i];
    }
    assert s[j + off..j + off + |small|] == small;
  }

  /** A failure that sets off the session's internal-error recovery is shown as 'Yelp internal error'. */
  lemma InternalFailureShownAsInternal(message: string)
    requires IsInternal(message)
    ensures ErrorText(Some(message)) == InternalErrorText
  {
    var lowered := Lower(message);
    var big, off := "internal_error", 0;
    if !Contains(lowered, big) {
      big, off := "something went wrong internally", 21;
    }
    assert big[off..off + 8] == "internal";
    var j := IndexOf(lowered, big).value;
    OccursInside(lowered, big, j, off, "internal");
  }

  /**
   * The reply text: with a non-empty `response.text`, the persona rewrite of it; otherwise
   * the text as it came, or 'No response text returned.' when there is none.
   */
  function ReplyText(personaId: string, outbound: string, reply: ChatResponse, env: Environment): RewriteResult {
    if Truthy(reply.text) then
      env.rewrite(personaId, outbound, reply.text.value, HasReservableEntity(reply.entities))
    else Rewritten(if reply.text.Some? then reply.text.value else NoResponseText)
  }

  /** The entities of a reply, `res.entities ?? []`. */
  function RawEntities(reply: ChatResponse): seq<Entity> {
    if reply.entities.Some? then reply.entities.value else []
  }

  /**
   * How a turn ends given Yelp's reply and the normalised entities: a failed call or a
   * rewrite that throws gives the error to show; otherwise the answer, with the businesses
   * its final text mentions.
   */
  function TurnEndOf(personaId: string, outbound: string, reply: Result<ChatResponse, YelpError>,
                     normalized: seq<Entity>, env: Environment): TurnEnd
  {
    match reply
    case Err(e) => Errored(ErrorText(Some(ErrorMessage(e))))
    case Ok(data) =>
      match ReplyText(personaId, outbound, data, env)
      case RewriteEscapes => Errored(ErrorText(env.rewriteErrorMessage))
      case Rewritten(text) => Answered(text, FilteredByText(text, normalized))
  }

  /** The normalised entities of a reply, none for a failed call. */
  function NormalizedReply(reply: Result<ChatResponse, YelpError>, slots: map<string, seq<string>>,
                           draws: nat -> ShuffleDraw): seq<Entity>
  {
    if reply.Ok? then Normalized(RawEntities(reply.value), slots, draws).0 else []
  }

  /** The assistant's message of a turn: one exactly when the turn is answered. */
  function AssistantMessages(end: TurnEnd): (r: seq<ChatMessage>)
    ensures |r| == (if end.Answered? then 1 else 0)
    ensures end.Answered? ==> r[0] == ChatMessage(Assistant, end.text, Some(end.entities))
  {
    if end.Answered? then [ChatMessage(Assistant, end.text, Some(end.entities))] else []
  }

  /** The slot cache after a reply: the normalisation's cache for a reply, unchanged for a failed call. */
  function SlotsAfter(reply: Result<ChatResponse, YelpError>, slots: map<string, seq<string>>,
                      draws: nat -> ShuffleDraw): map<string, seq<string>>
  {
    if reply.Ok? then Normalized(RawEntities(reply.value), slots, draws).1 else slots
  }

  /** The messages a turn adds: the user's, then the assistant's exactly when the turn is answered. */
  function TurnMessages(query: string, end: TurnEnd): (r: seq<ChatMessage>)
    ensures |r| == (if end.Answered? then 2 else 1)
    ensures r[0] == ChatMessage(User, query, None)
    ensures end.Answered? ==> r[1] == ChatMessage(Assistant, end.text, Some(end.entities))
  {
    [ChatMessage(User, query, None)] + AssistantMessages(end)
  }

  /** Appending a turn's messages is appending the user's message, then the assistant's if any. */
  lemma AppendTurnMessages(before: seq<ChatMessage>, query: string, end: TurnEnd)
    ensures before + TurnMessages(query, end) == before + [ChatMessage(User, query, None)] + AssistantMessages(end)
  {
  }

  /**
   * The answer's text: the non-empty rewrite when the reply has text; the reply's empty text
   * as it is; 'No response text returned.' when the reply has none. Its businesses are among
   * the normalised ones.
   */
  lemma AnsweredText(personaId: string, outbound: string, reply: ChatResponse, normalized: seq<Entity>,
                     env: Environment, e: Entity, flag: Option<string>, platform: string, apple: Option<AppleModule>,
                     apiKey: Option<string>, service: string -> CompletionOutcome)
    requires StandardRewrite(env, flag, platform, apple, apiKey, service)
    ensures var end := TurnEndOf(personaId, outbound, Ok(reply), normalized, env);
      && (end.Answered? && Truthy(reply.text) ==> end.text != "")
      && (reply.text == Some("") ==> end == Answered("", normalized))
      && (reply.text.None? ==> end.Answered? && end.text == NoResponseText)
      && (end.Answered? && e in end.entities ==> e in normalized)
  {
    var end := TurnEndOf(personaId, outbound, Ok(reply), normalized, env);
    if Truthy(reply.text) {
      RewrittenNonEmpty(personaId, outbound, reply.text.value, HasReservableEntity(reply.entities),
                        flag, platform, apple, apiKey, service);
    }
    if end.Answered? && e in end.entities {
      FilteredSubset(end.text, normalized, e);
    }
  }

  /** The businesses kept for a text are among the ones given. */
  lemma FilteredSubset(text: string, entities: seq<Entity>, e: Entity)
    requires e in FilteredByText(text, entities)
    ensures e in entities
  {
    if text != "" && Mentions(Lower(text), entities) != [] {
      FilteredByTextMembers(text, entities, e);
    }
  }

  /** A failed Yelp call ends the turn with its message shown, 'Yelp internal error' for an internal failure. */
  lemma FailedTurn(personaId: string, outbound: string, e: YelpError, normalized: seq<Entity>, env: Environment)
    ensures TurnEndOf(personaId, outbound, Err(e), normalized, env) == Errored(ErrorText(Some(ErrorMessage(e))))
    ensures IsInternal(ErrorMessage(e)) ==> TurnEndOf(personaId, outbound, Err(e), normalized, env) == Errored(InternalErrorText)
  {
    if IsInternal(ErrorMessage(e)) {
      InternalFailureShownAsInternal(ErrorMessage(e));
    }
  }

  /** The state of the hook, with the session it keeps in its ref. */
  class ChatFlow {
    const persona: Persona
    const session: YelpSession
    var messages: seq<ChatMessage>
    var loading: bool
    var error: Option<string>
    var weather: Option<Context.Weather>
    var chatId: Option<string>
    var useMock: bool

    /** `useChatFlow(personaId, ...)` on first render: the persona looked up, a new session, empty state. */
    constructor(personaId: string, yelpKey: Option<string>)
      ensures persona == GetPersona(personaId)
      ensures fresh(session) && session.chatId == None
      ensures session.apiKey == (if Truthy(yelpKey) then yelpKey else None)
      ensures messages == [] && !loading && error == None && weather == None && chatId == None && !useMock
    {
      persona := GetPersona(personaId);
      session := new YelpSession(None, yelpKey);
      messages := [];
      loading := false;
      error := None;
      weather := None;
      chatId := None;
      useMock := false;
    }

    /** The mount effect: a stored, non-empty chat id is restored into the session and the state. */
    method RestoreChatId(stored: Option<string>)
      modifies this, session
      ensures Truthy(stored) ==> session.chatId == stored && chatId == stored
      ensures !Truthy(stored) ==> session.chatId == old(session.chatId) && chatId == old(chatId)
      ensures messages == old(messages) && loading == old(loading) && error == old(error)
      ensures weather == old(weather) && useMock == old(useMock)
    {
      if Truthy(stored) {
        session.SetChatId(stored);
        chatId := stored;
      }
    }

    /** `resetChatSession`: the session's chat id, the messages, the error and the loading flag are cleared. */
    method ResetChatSession()
      modifies this, session
      ensures session.chatId == None && chatId == None
      ensures messages == [] && error == None && !loading
      ensures weather == old(weather) && useMock == old(useMock)
    {
      session.Reset();
      chatId := None;
      messages := [];
      error := None;
      loading := false;
    }

    /** `toggleMock`. */
    method ToggleMock()
      modifies this
      ensures useMock == !old(useMock)
      ensures messages == old(messages) && loading == old(loading) && error == old(error)
      ensures weather == old(weather) && chatId == old(chatId)
    {
      useMock := !useMock;
    }

    /** Steps 1-3 of `runDemo`: the user message, the loading state, the weather and the query to send. */
    method BeginTurn(customQuery: Option<string>, location: LocationData, env: Environment) returns (outbound: string)
      modifies this
      ensures messages == old(messages) + [ChatMessage(User, QueryOf(customQuery), None)]
      ensures loading && error == None
      ensures weather == (if old(weather).Some? then old(weather) else env.weatherFetch)
      ensures outbound == OutboundQuery(ContextText(weather, location, env), persona.preface, QueryOf(customQuery))
      ensures chatId == old(chatId) && useMock == old(useMock)
    {
      var query := QueryOf(customQuery);
      messages := messages + [ChatMessage(User, query, None)];
      loading := true;
      error := None;
      var currentWeather := weather;
      if currentWeather.None? && env.weatherFetch.Some? {
        weather := env.weatherFetch;
        currentWeather := env.weatherFetch;
      }
      outbound := OutboundQuery(ContextText(currentWeather, location, env), persona.preface, query);
    }

    /** Step 3: the reply to the query, from the mock when mock mode is on, from the session otherwise. */
    method AwaitReply(query: string, ctx: UserContext, mockReply: ChatResponse, net: ScriptedNetwork)
      returns (result: Result<ChatResponse, YelpError>)
      modifies session, net
      ensures useMock ==> SendRun(result, session.chatId, net.sent) == SendRun(Ok(mockReply), old(session.chatId), old(net.sent))
      ensures !useMock ==> SendRun(result, session.chatId, net.sent)
                           == SendChatSpec(session.apiKey, old(session.chatId), query, ctx, net.replies, old(net.sent))
    {
      if useMock {
        result := Ok(mockReply);
      } else {
        result := session.SendChat(net, query, ctx);
      }
    }

    /**
     * Steps 4 and 5: a reply's entities are normalised through the slot cache and the
     * session's chat id is taken over; a failed call skips both.
     */
    method TakeReply(reply: Result<ChatResponse, YelpError>, draws: nat -> ShuffleDraw, cache: SlotCache)
      returns (normalized: seq<Entity>)
      requires cache.Valid()
      modifies this, cache
      ensures cache.Valid()
      ensures normalized == NormalizedReply(reply, old(cache.slots), draws)
      ensures cache.slots == SlotsAfter(reply, old(cache.slots), draws)
      ensures chatId == (if reply.Ok? then session.chatId else old(chatId))
      ensures messages == old(messages) && loading == old(loading) && error == old(error)
      ensures weather == old(weather) && useMock == old(useMock)
    {
      if reply.Err? {
        return [];
      }
      normalized := NormalizeEntities(RawEntities(reply.value), cache, draws);
      chatId := session.chatId;
    }

    /**
     * Steps 6-8: a reply's text is rewritten and the answer posted with the businesses the
     * final text mentions; a failed call, or a rewrite that throws, sets the error instead.
     * `end` names how the turn ends.
     */
    method PostAnswer(query: string, reply: Result<ChatResponse, YelpError>, normalized: seq<Entity>, env: Environment)
      returns (ghost end: TurnEnd)
      modifies this
      ensures end == TurnEndOf(persona.id, query, reply, normalized, env)
      ensures messages == old(messages) + AssistantMessages(end)
      ensures error == (if end.Errored? then Some(end.message) else old(error))
      ensures loading == old(loading) && weather == old(weather) && useMock == old(useMock) && chatId == old(chatId)
    {
      if reply.Err? {
        error := Some(ErrorText(Some(ErrorMessage(reply.error))));
        end := Errored(ErrorText(Some(ErrorMessage(reply.error))));
        assert messages + AssistantMessages(end) == messages;
        return;
      }
      var text := ReplyText(persona.id, query, reply.value, env);
      if text.RewriteEscapes? {
        error := Some(ErrorText(env.rewriteErrorMessage));
        end := Errored(ErrorText(env.rewriteErrorMessage));
        assert messages + AssistantMessages(end) == messages;
      } else {
        var finalEntities := FilterEntitiesByPersonaText(text.text, normalized);
        messages := messages + [ChatMessage(Assistant, text.text, Some(finalEntities))];
        end := Answered(text.text, finalEntities);
      }
    }

    /**
     * `runDemo`: the user message first, then the reply from the session (or the mock), then
     * one assistant message or the error; `loading` is false at the end. `outbound`, `reply`
     * and `end` name the query sent, the reply obtained and how the turn ended.
     */
    method RunDemo(customQuery: Option<string>, location: LocationData, env: Environment,
                   net: ScriptedNetwork, cache: SlotCache)
      returns (ghost outbound: string, ghost reply: Result<ChatResponse, YelpError>, ghost end: TurnEnd)
      requires cache.Valid()
      modifies this, session, net, cache
      ensures cache.Valid()
      ensures !loading && useMock == old(useMock)
      ensures weather == (if old(weather).Some? then old(weather) else env.weatherFetch)
      ensures outbound == OutboundQuery(ContextText(weather, location, env), persona.preface, QueryOf(customQuery))
      ensures useMock ==> SendRun(reply, session.chatId, net.sent) == SendRun(Ok(env.mockReply), old(session.chatId), old(net.sent))
      ensures !useMock ==> SendRun(reply, session.chatId, net.sent)
                           == SendChatSpec(session.apiKey, old(session.chatId), outbound, UserContextOf(location.coords),
                                           net.replies, old(net.sent))
      ensures chatId == (if reply.Ok? then session.chatId else old(chatId))
      ensures cache.slots == SlotsAfter(reply, old(cache.slots), env.draws)
      ensures end == TurnEndOf(persona.id, outbound, reply, NormalizedReply(reply, old(cache.slots), env.draws), env)
      ensures messages == old(messages) + TurnMessages(QueryOf(customQuery), end)
      ensures error == (if end.Errored? then Some(end.message) else None)
    {
      var query := BeginTurn(customQuery, location, env);
      outbound := query;
      var result := AwaitReply(query, UserContextOf(location.coords), env.mockReply, net);
      reply := result;
      var normalized := TakeReply(result, env.draws, cache);
      end := PostAnswer(query, result, normalized, env);
      loading := false;
      AppendTurnMessages(old(messages), QueryOf(customQuery), end);
    }
  }
}
