/**
 * The recommendation-API client: the business record and its reservation helpers, the
 * retry policy for one HTTP exchange, and the session object that carries `chat_id`
 * between turns and recovers once from a server-side internal error.
 *
 * The network is a scripted sequence of outcomes: the k-th request ever posted receives
 * `replies(k)`. Back-off sleeps are recorded as a ghost list of delays.
 */
module Yelp {
  import opened Wrappers
  import opened Strings
  import opened Json

  // ---------------------------------------------------------------- records

  datatype Category = Category(title: string, alias: Option<string>)

  /** A reservation action; `kind` is the JSON field `type`. */
  datatype Action = Action(kind: Option<string>, url: Option<string>)

  datatype Location = Location(address1: Option<string>, city: Option<string>,
                               state: Option<string>, zipCode: Option<string>)

  datatype Coordinates = Coordinates(latitude: real, longitude: real)

  /**
   * A business record. The API's raw records and the normalised ones share this shape; only
   * raw records carry the three summary sources and a nested `businesses` list, only
   * normalised ones carry `summary` and `mockSlots`. An absent field is None.
   */
  datatype Entity = Entity(
    id: Option<string>, name: Option<string>, url: Option<string>, phone: Option<string>,
    rating: Option<real>, price: Option<string>, distance: Option<real>,
    location: Option<Location>, coordinates: Option<Coordinates>,
    categories: Option<seq<Category>>, reservationUrl: Option<string>, actions: Option<seq<Action>>,
    summary: Option<string>, mockSlots: Option<seq<string>>,
    contextualSummary: Option<string>, shortSummary: Option<string>, bizSummary: Option<string>,
    businesses: seq<Entity>)

  /** A record with only an id, a name and a url, every other field absent. */
  function Business(id: Option<string>, name: Option<string>, url: Option<string>): Entity {
    Entity(id, name, url, None, None, None, None, None, None, None, None, None,
           None, None, None, None, None, [])
  }

  // ---------------------------------------------------------------- reservations

  const ReservationType := "reservation"

  predicate IsReservationAction(a: Action) {
    a.kind == Some(ReservationType)
  }

  /** `actions.some(a => a.type === 'reservation')`. */
  predicate SomeReservationAction(actions: seq<Action>) {
    actions != [] && (IsReservationAction(actions[0]) || SomeReservationAction(actions[1..]))
  }

  /** Whether the record can be reserved: a non-empty reservation url, or a reservation action. */
  predicate HasReservation(e: Entity) {
    Truthy(e.reservationUrl) || (e.actions.Some? && SomeReservationAction(e.actions.value))
  }

  /** The first reservation action of a list, as `actions.find(...)` picks it. */
  function FirstReservationAction(actions: seq<Action>): (r: Option<Action>)
    ensures r.Some? ==> IsReservationAction(r.value) && r.value in actions
    ensures r.None? <==> forall i :: 0 <= i < |actions| ==> !IsReservationAction(actions[i])
    ensures |actions| > 0 && IsReservationAction(actions[0]) ==> r == Some(actions[0])
    ensures |actions| > 0 && !IsReservationAction(actions[0]) ==> r == FirstReservationAction(actions[1..])
  {
    if actions == [] then None
    else if IsReservationAction(actions[0]) then Some(actions[0])
    else
      assert forall i :: 1 <= i < |actions| ==> actions[i] == actions[1..][i - 1];
      FirstReservationAction(actions[1..])
  }

  /** `some` finds a reservation action iff there is one, which is iff `find` returns one. */
  lemma {:induction false} SomeReservationActionIff(actions: seq<Action>)
    ensures SomeReservationAction(actions) <==> exists i :: 0 <= i < |actions| && IsReservationAction(actions[i])
    ensures SomeReservationAction(actions) <==> FirstReservationAction(actions).Some?
  {
    if actions != [] {
      SomeReservationActionIff(actions[1..]);
      assert forall i :: 1 <= i < |actions| ==> actions[i] == actions[1..][i - 1];
    }
  }

  /**
   * The link a "reserve" button opens: the reservation url if it is non-empty; otherwise the
   * first reservation action's url, or failing that the record's own url, provided the chosen
   * url is not blank.
   */
  function GetReservationUrl(e: Entity): (r: Option<string>)
    ensures Truthy(e.reservationUrl) ==> r == e.reservationUrl
    ensures !Truthy(e.reservationUrl) ==>
      var action := if e.actions.Some? then FirstReservationAction(e.actions.value) else None;
      var chosen := if action.Some? && Truthy(action.value.url) then action.value.url else e.url;
      r == (if chosen.Some? && !Blank(chosen.value) then chosen else None)
    ensures r.Some? ==> r.value != ""
  {
    if Truthy(e.reservationUrl) then e.reservationUrl
    else
      var action := if e.actions.Some? then FirstReservationAction(e.actions.value) else None;
      var url := if action.Some? && Truthy(action.value.url) then action.value.url else e.url;
      if Truthy(url) && |Trim(url.value)| > 0 then url else None
  }

  /** `entities.some(e => hasReservation(e))`. */
  predicate SomeReservable(es: seq<Entity>) {
    es != [] && (HasReservation(es[0]) || SomeReservable(es[1..]))
  }

  /** `hasReservableEntity`: `some` over an optional list, false for an absent list. */
  predicate HasReservableEntity(entities: Option<seq<Entity>>) {
    entities.Some? && SomeReservable(entities.value)
  }

  /** `some` finds a reservable record iff the list has one. */
  lemma {:induction false} SomeReservableIff(es: seq<Entity>)
    ensures SomeReservable(es) <==> exists i :: 0 <= i < |es| && HasReservation(es[i])
  {
    if es != [] {
      SomeReservableIff(es[1..]);
      assert forall i :: 1 <= i < |es| ==> es[i] == es[1..][i - 1];
    }
  }

  /** A list holds a reservable record iff it is present and one of its records is reservable. */
  lemma HasReservableEntityIff(entities: Option<seq<Entity>>)
    ensures !HasReservableEntity(None)
    ensures HasReservableEntity(entities) <==>
      entities.Some? && exists i :: 0 <= i < |entities.value| && HasReservation(entities.value[i])
  {
    if entities.Some? {
      SomeReservableIff(entities.value);
    }
  }

  /** A non-empty reservation url makes the record reservable and is the link, returned as it is. */
  lemma ReservationUrlOfReservable(e: Entity)
    requires Truthy(e.reservationUrl)
    ensures HasReservation(e) && GetReservationUrl(e) == e.reservationUrl
  {
  }

  // ---------------------------------------------------------------- one HTTP exchange

  datatype UserContext = UserContext(locale: string, latitude: real, longitude: real)

  /** The body posted to the chat endpoint; `chatId` is the optional `chat_id` member. */
  datatype ChatPayload = ChatPayload(query: string, userContext: UserContext, chatId: Option<string>)

  /** A successful reply; `text` is `response.text`, absent when `response` is. */
  datatype ChatResponse = ChatResponse(chatId: Option<string>, text: Option<string>, entities: Option<seq<Entity>>)

  /** What one POST yields: the reply data, or an error with its status, body and message. */
  datatype Outcome =
    | Replied(data: ChatResponse)
    | Failed(status: Option<int>, body: Option<Json>, message: Option<string>)

  const UnauthorizedMessage := "Unauthorized: check Yelp API key"
  const UnknownErrorMessage := "Unknown Yelp API error"
  const MissingKeyMessage := "Yelp API key is missing. Please check your environment variables or EAS secrets."
  const DefaultRetries: nat := 2
  const DefaultBackoffMs: nat := 600

  predicate IsTransient(status: Option<int>) {
    status == Some(500) || status == Some(503) || status == Some(504)
  }

  /** `payload?.error?.description`. */
  function ErrorDescription(body: Option<Json>): Option<Json> {
    Get(Get(body, "error"), "description")
  }

  /** Whether an optional JSON value is present and truthy. */
  predicate SomeTruthy(v: Option<Json>) {
    v.Some? && JsonTruthy(v.value)
  }

  /**
   * The value the source calls `message` on a terminal failure: the body's error description,
   * else the body itself, else the transport message, else a fixed phrase; each only if truthy.
   */
  function FailureValue(body: Option<Json>, message: Option<string>): (v: Json)
    ensures SomeTruthy(ErrorDescription(body)) ==> v == ErrorDescription(body).value
    ensures !SomeTruthy(ErrorDescription(body)) && SomeTruthy(body) ==> v == body.value
    ensures !SomeTruthy(ErrorDescription(body)) && !SomeTruthy(body) && Truthy(message) ==> v == JString(message.value)
    ensures !SomeTruthy(ErrorDescription(body)) && !SomeTruthy(body) && !Truthy(message) ==> v == JString(UnknownErrorMessage)
    ensures JsonTruthy(v)
  {
    var description := ErrorDescription(body);
    if description.Some? && JsonTruthy(description.value) then description.value
    else if body.Some? && JsonTruthy(body.value) then body.value
    else if Truthy(message) then JString(message.value)
    else JString(UnknownErrorMessage)
  }

  /**
   * The object `JSON.stringify` is given when the value is not a string: status, the error
   * code, the transport message and the body, each left out when undefined, and nothing else.
   */
  function ErrorFields(status: Option<int>, body: Option<Json>, message: Option<string>): (r: seq<Member>)
    ensures Lookup(r, "status") == (if status.Some? then Some(JNumber(status.value)) else None)
    ensures Lookup(r, "code") == Get(Get(body, "error"), "code")
    ensures Lookup(r, "message") == (if message.Some? then Some(JString(message.value)) else None)
    ensures Lookup(r, "data") == body
    ensures |r| == (if status.Some? then 1 else 0) + (if Get(Get(body, "error"), "code").Some? then 1 else 0)
                   + (if message.Some? then 1 else 0) + (if body.Some? then 1 else 0)
  {
    var st := if status.Some? then Some(JNumber(status.value)) else None;
    var cd := Get(Get(body, "error"), "code");
    var ms := if message.Some? then Some(JString(message.value)) else None;
    var d := Field("data", body);
    var m := Field("message", ms) + d;
    var c := Field("code", cd) + m;
    LookupField("data", body, [], "data");
    LookupField("message", ms, d, "message");
    LookupField("message", ms, d, "data");
    LookupField("code", cd, m, "code");
    LookupField("code", cd, m, "message");
    LookupField("code", cd, m, "data");
    LookupField("status", st, c, "status");
    LookupField("status", st, c, "code");
    LookupField("status", st, c, "message");
    LookupField("status", st, c, "data");
    Field("status", st) + c
  }

  /** A member for `key` when the value is defined, none otherwise, as `JSON.stringify` drops undefined. */
  function Field(key: string, v: Option<Json>): seq<Member> {
    if v.Some? then [Member(key, v.value)] else []
  }

  /** An optional member in front of a list answers its own key and passes every other key on. */
  lemma LookupField(key: string, v: Option<Json>, rest: seq<Member>, k: string)
    ensures Lookup(Field(key, v) + rest, k) == (if k == key && v.Some? then v else Lookup(rest, k))
  {
    if v.Some? {
      assert (Field(key, v) + rest)[1..] == rest;
    } else {
      assert Field(key, v) + rest == rest;
    }
  }

  /** The message of the error thrown after the last attempt: the value if it is a string, else its JSON encoding with status, code, message and data. */
  function TerminalMessage(status: Option<int>, body: Option<Json>, message: Option<string>): string {
    match FailureValue(body, message)
    case JString(s) => s
    case _ => Stringify(JObject(ErrorFields(status, body, message)))
  }

  /**
   * The thrown text follows the priority chain: a truthy string description, else a truthy
   * string body, else the transport message, else 'Unknown Yelp API error'; a chosen value
   * that is not a string is thrown as the JSON text of the error fields, whose `data` is the
   * body, and is never empty.
   */
  lemma TerminalMessageCases(status: Option<int>, body: Option<Json>, message: Option<string>)
    ensures var d := ErrorDescription(body);
      var t := TerminalMessage(status, body, message);
      && (SomeTruthy(d) && d.value.JString? ==> t == d.value.s)
      && (!SomeTruthy(d) && SomeTruthy(body) && body.value.JString? ==> t == body.value.s)
      && (!SomeTruthy(d) && !SomeTruthy(body) ==> t == (if Truthy(message) then message.value else UnknownErrorMessage))
      && (!FailureValue(body, message).JString? ==>
            t == Stringify(JObject(ErrorFields(status, body, message))) && Lookup(ErrorFields(status, body, message), "data") == body)
      && t != ""
  {
    var v := FailureValue(body, message);
    if !v.JString? {
      var fields := ErrorFields(status, body, message);
      assert Stringify(JObject(fields))[0] == '{';
    }
  }

  /** Why a request failed: the 401 answer, a missing key, or any other terminal failure. */
  datatype YelpError =
    | Unauthorized
    | MissingKey
    | Terminal(status: Option<int>, body: Option<Json>, message: Option<string>)

  /** The message of the thrown error. */
  function ErrorMessage(e: YelpError): string {
    match e
    case Unauthorized => UnauthorizedMessage
    case MissingKey => MissingKeyMessage
    case Terminal(status, body, message) => TerminalMessage(status, body, message)
  }

  /** `b` doubled `k` times, that is b * 2^k. */
  function Doubled(b: nat, k: nat): (r: nat)
    decreases k
    ensures b > 0 ==> r >= b
  {
    if k == 0 then b else Doubled(2 * b, k - 1)
  }

  /** How a request with retries ends: its result, the number of POSTs made and the sleeps between them. */
  datatype RetryRun = RetryRun(result: Result<ChatResponse, YelpError>, attempts: nat, delays: seq<nat>)

  predicate RetriedStatus(o: Outcome) {
    o.Failed? && (o.status == Some(429) || IsTransient(o.status))
  }

  /**
   * The retry policy, starting at reply number `first` with `retries` retries left: 401 fails
   * at once; 429, 500, 503 and 504 are retried while retries remain, each after sleeping the
   * current back-off, which then doubles; anything else fails on that attempt. The loop stops
   * before its last allowed attempt only on an outcome it does not retry; the request succeeds
   * exactly when the last attempt got a reply, with that reply's data, and otherwise fails with
   * `Unauthorized` for a 401 and with the last attempt's status, body and message for anything else.
   */
  function Retry(replies: nat -> Outcome, first: nat, retries: nat, backoffMs: nat): (run: RetryRun)
    decreases retries
    ensures 1 <= run.attempts <= retries + 1
    ensures |run.delays| == run.attempts - 1
    ensures var last := replies(first + run.attempts - 1);
      && (run.attempts < retries + 1 ==> !RetriedStatus(last))
      && (run.result.Ok? <==> last.Replied?)
      && (run.result.Ok? ==> run.result.value == last.data)
      && (run.result.Err? ==>
            last.Failed? && run.result.error
              == (if last.status == Some(401) then Unauthorized else Terminal(last.status, last.body, last.message)))
  {
    match replies(first)
    case Replied(data) => RetryRun(Ok(data), 1, [])
    case Failed(status, body, message) =>
      if status == Some(401) then RetryRun(Err(Unauthorized), 1, [])
      else if (status == Some(429) || IsTransient(status)) && retries > 0 then
        var rest := Retry(replies, first + 1, retries - 1, backoffMs * 2);
        RetryRun(rest.result, rest.attempts + 1, [backoffMs] + rest.delays)
      else RetryRun(Err(Terminal(status, body, message)), 1, [])
  }

  /** The i-th sleep is the initial back-off doubled i times. */
  lemma {:induction false} RetryDelaysDouble(replies: nat -> Outcome, first: nat, retries: nat, backoffMs: nat)
    decreases retries
    ensures var run := Retry(replies, first, retries, backoffMs);
      forall i :: 0 <= i < |run.delays| ==> run.delays[i] == Doubled(backoffMs, i)
  {
    var o := replies(first);
    if o.Failed? && o.status != Some(401) && RetriedStatus(o) && retries > 0 {
      var rest := Retry(replies, first + 1, retries - 1, backoffMs * 2);
      assert Retry(replies, first, retries, backoffMs).delays == [backoffMs] + rest.delays;
      RetryDelaysDouble(replies, first + 1, retries - 1, backoffMs * 2);
    } else {
      assert Retry(replies, first, retries, backoffMs).delays == [];
    }
  }

  /** Every attempt but the last got a retried status (429, 500, 503 or 504). */
  lemma {:induction false} RetryOutcome(replies: nat -> Outcome, first: nat, retries: nat, backoffMs: nat)
    decreases retries
    ensures var run := Retry(replies, first, retries, backoffMs);
      forall j :: first <= j < first + run.attempts - 1 ==> RetriedStatus(replies(j))
  {
    var o := replies(first);
    if o.Failed? && o.status != Some(401) && RetriedStatus(o) && retries > 0 {
      var rest := Retry(replies, first + 1, retries - 1, backoffMs * 2);
      assert Retry(replies, first, retries, backoffMs).attempts == rest.attempts + 1;
      RetryOutcome(replies, first + 1, retries - 1, backoffMs * 2);
    } else {
      assert Retry(replies, first, retries, backoffMs).attempts == 1;
    }
  }

  /** A 401 ends the request at once, whatever retries remain. */
  lemma RetryUnauthorized(replies: nat -> Outcome, first: nat, retries: nat, backoffMs: nat)
    requires replies(first).Failed? && replies(first).status == Some(401)
    ensures Retry(replies, first, retries, backoffMs) == RetryRun(Err(Unauthorized), 1, [])
  {
  }

  /** With the defaults (two retries, 600 ms), at most three POSTs and sleeps of 600 then 1200 ms. */
  lemma DefaultRetryPolicy(replies: nat -> Outcome, first: nat)
    ensures var run := Retry(replies, first, DefaultRetries, DefaultBackoffMs);
      run.attempts <= 3 && run.delays <= [600, 1200]
  {
    var run := Retry(replies, first, DefaultRetries, DefaultBackoffMs);
    RetryDelaysDouble(replies, first, DefaultRetries, DefaultBackoffMs);
    assert Doubled(600, 1) == 1200;
  }

  /** A failure other than 401 that is not retried (or has no retries left) ends the request on that attempt. */
  lemma TerminalFailure(replies: nat -> Outcome, first: nat, retries: nat, backoffMs: nat)
    requires replies(first).Failed? && replies(first).status != Some(401)
    requires !RetriedStatus(replies(first)) || retries == 0
    ensures var o := replies(first);
      Retry(replies, first, retries, backoffMs)
        == RetryRun(Err(Terminal(o.status, o.body, o.message)), 1, [])
  {
  }

  function Repeat<T>(x: T, n: nat): (r: seq<T>)
    ensures |r| == n && forall i :: 0 <= i < n ==> r[i] == x
  {
    seq(n, _ => x)
  }

  /** The scripted network: reply k goes to the k-th POST ever made; `sent` logs every payload. */
  class ScriptedNetwork {
    const replies: nat -> Outcome
    var sent: seq<ChatPayload>

    constructor (replies: nat -> Outcome)
      ensures this.replies == replies && sent == []
    {
      this.replies := replies;
      sent := [];
    }

    method Post(payload: ChatPayload) returns (o: Outcome)
      modifies this
      ensures sent == old(sent) + [payload]
      ensures o == replies(|old(sent)|)
    {
      o := replies(|sent|);
      sent := sent + [payload];
    }
  }

  /** POSTs `payload` until the retry policy stops; every attempt posts the same payload. */
  method RequestWithRetry(net: ScriptedNetwork, payload: ChatPayload, retries: nat, backoffMs: nat)
    returns (result: Result<ChatResponse, YelpError>, ghost delays: seq<nat>)
    modifies net
    decreases retries
    ensures var run := Retry(net.replies, |old(net.sent)|, retries, backoffMs);
      result == run.result && delays == run.delays
      && net.sent == old(net.sent) + Repeat(payload, run.attempts)
  {
    ghost var before := net.sent;
    var o := net.Post(payload);
    if o.Replied? {
      assert Repeat(payload, 1) == [payload];
      return Ok(o.data), [];
    }
    if o.status == Some(401) {
      assert Repeat(payload, 1) == [payload];
      return Err(Unauthorized), [];
    }
    if (o.status == Some(429) || IsTransient(o.status)) && retries > 0 {
      ghost var rest := Retry(net.replies, |before| + 1, retries - 1, backoffMs * 2);
      assert Retry(net.replies, |before|, retries, backoffMs)
          == RetryRun(rest.result, rest.attempts + 1, [backoffMs] + rest.delays);
      var r;
      r, delays := RequestWithRetry(net, payload, retries - 1, backoffMs * 2);
      assert Repeat(payload, rest.attempts + 1) == [payload] + Repeat(payload, rest.attempts);
      return r, [backoffMs] + delays;
    }
    TerminalFailure(net.replies, |before|, retries, backoffMs);
    assert Repeat(payload, 1) == [payload];
    return Err(Terminal(o.status, o.body, o.message)), [];
  }

  // ---------------------------------------------------------------- the session

  /** The payload for a query: `chat_id` is included exactly when the session holds a non-empty one. */
  function Payload(query: string, ctx: UserContext, chatId: Option<string>): (p: ChatPayload)
    ensures p.query == query && p.userContext == ctx
    ensures p.chatId.Some? <==> Truthy(chatId)
    ensures p.chatId.Some? ==> p.chatId == chatId
  {
    ChatPayload(query, ctx, if Truthy(chatId) then chatId else None)
  }

  /** Whether a failure message signals the server's internal error (case-insensitively). */
  predicate IsInternal(message: string) {
    Contains(Lower(message), "internal_error") || Contains(Lower(message), "something went wrong internally")
  }

  /** How one `sendChat` call ends: its result, the session's chat id afterwards, and every payload posted. */
  datatype SendRun = SendRun(result: Result<ChatResponse, YelpError>, chatId: Option<string>, sent: seq<ChatPayload>)

  /**
   * `sendChat` as a function of the session's key and chat id and of the network's replies:
   * a missing key fails before any POST; a reply's non-empty chat id replaces the session's;
   * an internal error while a chat id is held clears it and runs the whole call once more.
   */
  function SendChatSpec(apiKey: Option<string>, chatId: Option<string>, query: string, ctx: UserContext,
                        replies: nat -> Outcome, sent: seq<ChatPayload>): (r: SendRun)
    decreases if Truthy(chatId) then 1 else 0
    ensures sent <= r.sent && |r.sent| <= |sent| + 2 * (DefaultRetries + 1)
    ensures !Truthy(apiKey) ==> r == SendRun(Err(MissingKey), chatId, sent)
    ensures Truthy(apiKey) ==> |r.sent| > |sent|
    ensures forall i :: |sent| <= i < |r.sent| ==>
              r.sent[i] == Payload(query, ctx, chatId) || r.sent[i] == Payload(query, ctx, None)
    ensures r.result.Ok? && Truthy(r.result.value.chatId) ==> r.chatId == r.result.value.chatId
    ensures r.chatId == chatId || r.chatId == None
            || (r.result.Ok? && r.chatId == r.result.value.chatId)
    ensures !Truthy(chatId) && !(r.result.Ok? && Truthy(r.result.value.chatId)) ==> r.chatId == chatId
    ensures var run := Retry(replies, |sent|, DefaultRetries, DefaultBackoffMs);
      (Truthy(apiKey) && !(run.result.Err? && IsInternal(ErrorMessage(run.result.error)) && Truthy(chatId)))
      ==> r.chatId == (if r.result.Ok? && Truthy(r.result.value.chatId) then r.result.value.chatId else chatId)
  {
    if !Truthy(apiKey) then SendRun(Err(MissingKey), chatId, sent)
    else
      var payload := Payload(query, ctx, chatId);
      var run := Retry(replies, |sent|, DefaultRetries, DefaultBackoffMs);
      var sent' := sent + Repeat(payload, run.attempts);
      match run.result
      case Ok(data) => SendRun(Ok(data), if Truthy(data.chatId) then data.chatId else chatId, sent')
      case Err(e) =>
        if IsInternal(ErrorMessage(e)) && Truthy(chatId) then
          SendChatSpec(apiKey, None, query, ctx, replies, sent')
        else SendRun(Err(e), chatId, sent')
  }

  /** Without a chat id the recovery cannot fire: one request round, and no payload carries `chat_id`. */
  lemma NoRecoveryWithoutChatId(apiKey: Option<string>, chatId: Option<string>, query: string, ctx: UserContext,
                                replies: nat -> Outcome, sent: seq<ChatPayload>)
    requires Truthy(apiKey) && !Truthy(chatId)
    ensures var r := SendChatSpec(apiKey, chatId, query, ctx, replies, sent);
      var run := Retry(replies, |sent|, DefaultRetries, DefaultBackoffMs);
      r.result == run.result && |r.sent| == |sent| + run.attempts
      && forall i :: |sent| <= i < |r.sent| ==> r.sent[i].chatId == None
  {
  }

  /** A 401 ends the call after a single POST with the "Unauthorized" error, whatever the chat id. */
  lemma UnauthorizedIsFinal(apiKey: Option<string>, chatId: Option<string>, query: string, ctx: UserContext,
                            replies: nat -> Outcome, sent: seq<ChatPayload>)
    requires Truthy(apiKey) && replies(|sent|).Failed? && replies(|sent|).status == Some(401)
    ensures var r := SendChatSpec(apiKey, chatId, query, ctx, replies, sent);
      r == SendRun(Err(Unauthorized), chatId, sent + [Payload(query, ctx, chatId)])
  {
    var run := Retry(replies, |sent|, DefaultRetries, DefaultBackoffMs);
    assert run == RetryRun(Err(Unauthorized), 1, []);
    UnauthorizedNotInternal();
  }

  /** The "Unauthorized" message does not read as an internal error. */
  lemma UnauthorizedNotInternal()
    ensures !IsInternal(ErrorMessage(Unauthorized))
  {
    var m := Lower(UnauthorizedMessage);
    assert '_' !in m && 'g' !in m by {
      forall i | 0 <= i < |m| ensures m[i] != '_' && m[i] != 'g' {
        assert UnauthorizedMessage[i] != '_' && UnauthorizedMessage[i] != 'g' && UnauthorizedMessage[i] != 'G';
      }
    }
    AbsentCharNotContained(m, "internal_error", '_');
    assert "something went wrong internally"[8] == 'g';
    AbsentCharNotContained(m, "something went wrong internally", 'g');
  }

  /** A reply's non-empty chat id is kept, so the next call's payload carries it. */
  lemma ChatIdCarriedForward(apiKey: Option<string>, chatId: Option<string>, query: string, ctx: UserContext,
                             replies: nat -> Outcome, sent: seq<ChatPayload>, next: string)
    requires Truthy(apiKey) && replies(|sent|).Replied? && Truthy(replies(|sent|).data.chatId)
    ensures var r := SendChatSpec(apiKey, chatId, query, ctx, replies, sent);
      r.result == Ok(replies(|sent|).data) && r.chatId == replies(|sent|).data.chatId
      && r.sent == sent + [Payload(query, ctx, chatId)]
      && Payload(next, ctx, r.chatId).chatId == replies(|sent|).data.chatId
  {
    assert Repeat(Payload(query, ctx, chatId), 1) == [Payload(query, ctx, chatId)];
  }

  /**
   * When a call holding a chat id ends its request round with an internal error, the session
   * forgets the chat id and the call continues as a fresh call without one.
   */
  lemma InternalErrorDropsChatId(apiKey: Option<string>, chatId: Option<string>, query: string, ctx: UserContext,
                                 replies: nat -> Outcome, sent: seq<ChatPayload>)
    requires Truthy(apiKey) && Truthy(chatId)
    requires var run := Retry(replies, |sent|, DefaultRetries, DefaultBackoffMs);
      run.result.Err? && IsInternal(ErrorMessage(run.result.error))
    ensures var run := Retry(replies, |sent|, DefaultRetries, DefaultBackoffMs);
      var sent' := sent + Repeat(Payload(query, ctx, chatId), run.attempts);
      SendChatSpec(apiKey, chatId, query, ctx, replies, sent) == SendChatSpec(apiKey, None, query, ctx, replies, sent')
      && forall i :: |sent| <= i < |sent'| ==> sent'[i].chatId == chatId
  {
  }

  const InternalHead := "Something went wrong internally"
  const InternalDescription := InternalHead + ", please try again later."

  /** The failure the server sends for an internal error: status 500 with an INTERNAL_ERROR body. */
  function InternalFailure(): Outcome {
    Failed(Some(500),
           Some(JObject([Member("error", JObject([Member("code", JString("INTERNAL_ERROR")),
                                                  Member("description", JString(InternalDescription))]))])),
           Some("Request failed with status code 500"))
  }

  /** The thrown message of that failure is the body's error description. */
  lemma InternalFailureMessage()
    ensures ErrorMessage(Terminal(InternalFailure().status, InternalFailure().body, InternalFailure().message))
            == InternalDescription
  {
    var f := InternalFailure();
    var error := JObject([Member("code", JString("INTERNAL_ERROR")), Member("description", JString(InternalDescription))]);
    assert Get(f.body, "error") == Some(error);
    assert Lookup(error.members, "description") == Some(JString(InternalDescription));
    assert ErrorDescription(f.body) == Some(JString(InternalDescription));
    assert FailureValue(f.body, f.message) == JString(InternalDescription);
  }

  /** The description is recognised as an internal error. */
  lemma InternalDescriptionIsInternal()
    ensures IsInternal(InternalDescription)
  {
    var m := Lower(InternalDescription);
    var sub := "something went wrong internally";
    assert Lower(InternalHead) == sub;
    assert m[..|sub|] == Lower(InternalHead) by {
      assert InternalDescription[..|InternalHead|] == InternalHead;
    }
    assert OccursAt(m, sub, 0);
  }

  /**
   * Three internal errors and then a reply, starting from a stale chat id: the first round's
   * three POSTs carry the stale id, the recovery's single POST carries none, and the call succeeds.
   */
  lemma StaleChatIdRecovery(apiKey: string, query: string, ctx: UserContext, reply: ChatResponse)
    requires apiKey != "" && reply.chatId == None
    ensures var replies := (k: nat) => if k < 3 then InternalFailure() else Replied(reply);
      var r := SendChatSpec(Some(apiKey), Some("stale-chat"), query, ctx, replies, []);
      r.result == Ok(reply) && |r.sent| == 4
      && r.sent[0].chatId == Some("stale-chat") && r.sent[3].chatId == None
      && r.chatId == None
  {
    var replies := (k: nat) => if k < 3 then InternalFailure() else Replied(reply);
    InternalFailureMessage();
    InternalDescriptionIsInternal();
    var first := Retry(replies, 0, DefaultRetries, DefaultBackoffMs);
    assert first == RetryRun(Err(Terminal(InternalFailure().status, InternalFailure().body, InternalFailure().message)), 3, [600, 1200]);
    var sent' := Repeat(Payload(query, ctx, Some("stale-chat")), 3);
    InternalErrorDropsChatId(Some(apiKey), Some("stale-chat"), query, ctx, replies, []);
    var second := Retry(replies, 3, DefaultRetries, DefaultBackoffMs);
    assert second == RetryRun(Ok(reply), 1, []);
    NoRecoveryWithoutChatId(Some(apiKey), None, query, ctx, replies, sent');
  }

  /** The session: the API key it was created with and the current `chat_id`. */
  class YelpSession {
    const apiKey: Option<string>
    var chatId: Option<string>

    /** `apiKey ?? getApiKey()`, where the environment's key counts only when non-empty. */
    constructor (apiKey: Option<string>, envKey: Option<string>)
      ensures this.apiKey == (if apiKey.Some? then apiKey else if Truthy(envKey) then envKey else None)
      ensures chatId == None
    {
      this.apiKey := if apiKey.Some? then apiKey else if Truthy(envKey) then envKey else None;
      chatId := None;
    }

    method Reset()
      modifies this
      ensures chatId == None
    {
      chatId := None;
    }

    method GetChatId() returns (id: Option<string>)
      ensures id == chatId
    {
      id := chatId;
    }

    method SetChatId(id: Option<string>)
      modifies this
      ensures chatId == id
    {
      chatId := id;
    }

    method SendChat(net: ScriptedNetwork, query: string, ctx: UserContext) returns (result: Result<ChatResponse, YelpError>)
      modifies this, net
      decreases if Truthy(chatId) then 1 else 0
      ensures var r := SendChatSpec(apiKey, old(chatId), query, ctx, net.replies, old(net.sent));
        result == r.result && chatId == r.chatId && net.sent == r.sent
    {
      if !Truthy(apiKey) {
        return Err(MissingKey);
      }
      var payload := Payload(query, ctx, chatId);
      ghost var delays;
      var r;
      r, delays := RequestWithRetry(net, payload, DefaultRetries, DefaultBackoffMs);
      match r {
        case Ok(data) =>
          if Truthy(data.chatId) {
            chatId := data.chatId;
          }
          return Ok(data);
        case Err(e) =>
          if IsInternal(ErrorMessage(e)) && Truthy(chatId) {
            chatId := None;
            result := SendChat(net, query, ctx);
            return;
          }
          return Err(e);
      }
    }
  }

  // ---------------------------------------------------------------- reverse geocoding

  datatype GeoBusiness = GeoBusiness(location: Option<Location>)

  /** The business-search reply: failed, or the `businesses` list if the body had one. */
  datatype GeoOutcome = GeoFailed | GeoReplied(businesses: Option<seq<GeoBusiness>>)

  /** The nearest business's city, when there is a key, a reply, a first business with a location, and a non-empty city. */
  function ReverseGeocode(apiKey: Option<string>, reply: GeoOutcome): (r: Option<string>)
    ensures r.Some? ==> (Truthy(apiKey) && reply.GeoReplied? && reply.businesses.Some?
                         && |reply.businesses.value| > 0 && reply.businesses.value[0].location.Some?
                         && r == reply.businesses.value[0].location.value.city && r.value != "")
    ensures (Truthy(apiKey) && reply.GeoReplied? && reply.businesses.Some? && |reply.businesses.value| > 0
             && reply.businesses.value[0].location.Some?
             && Truthy(reply.businesses.value[0].location.value.city)) ==> r.Some?
  {
    if !Truthy(apiKey) then None
    else match reply
      case GeoFailed => None
      case GeoReplied(businesses) =>
        if businesses.Some? && |businesses.value| > 0 && businesses.value[0].location.Some? then
          var city := businesses.value[0].location.value.city;
          if Truthy(city) then city else None
        else None
  }
}
