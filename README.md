# vibe-guide core, modelled in Dafny

vibe-guide is a mobile persona guide. A user picks a persona ("Artsy Ava", "Barry Broadway", ...)
and asks a question. The app sends the question to the Yelp AI chat API, together with a context
line (time of day, weather, location, search radius) and the persona's preface. It normalises the
businesses in the reply and has the reply rewritten in the persona's voice, by the on-device Apple
model or by OpenAI. The text is spoken through a cached text-to-speech clip, and business cards are
shown for the places the final text mentions.

This project models the logic under that flow. Each source file is one module:

| module | file | form |
|---|---|---|
| `Entities` | `services/entities.ts` | imperative |
| `Yelp` | `services/yelp.ts` | mixed |
| `Booking` | `utils/booking.ts` | mixed |
| `Context` | `utils/context.ts` | pure |
| `Colors` | `utils/colors.ts` | pure |
| `Personas` | `services/persona.ts`, `constants/personas.ts` | pure |
| `OpenAi` | `services/openai.ts` | mixed |
| `Rewrite` | `services/rewrite.ts` | pure |
| `Audio` | `services/audio.ts` | imperative |
| `EntityCard` | `components/EntityCard.tsx` | mixed |
| `ChatFlow` | `hooks/useChatFlow.ts` | imperative |

Where the source mutates state, the model is a class: `YelpSession`, the memo `SlotCache`, the
audio `PlayerRegistry`, the card's `BookingCard` and the hook's `ChatFlow`. Those classes have
methods whose contracts tie the new state to specification functions. The loops of the source are
methods with loop invariants, each proved equal to a function:
- `normalizeEntities`, through its flatten, slot and dedup passes;
- `filterEntitiesByPersonaText`;
- `hashText`.

Everything outside the code is an input:
- the network, as a scripted sequence of outcomes the model can count posts against;
- the clock hour and formatted time;
- the shuffle;
- the LLM answers;
- the weather fetch;
- number formatting.

Helper modules:
- `Wrappers`: `Option` and `Result`.
- `Strings`: JavaScript string semantics — truthiness, `trim` with the ECMAScript white-space set, `indexOf`, `split`, `join`, `padStart`, `toString(16)`.
- `Numbers`: `Math.round`, the clamp, ToInt32, `>>` and `& 255`.
- `Sorting`: a stable sort by a real key, proved sorted, a permutation and stable.
- `Json`: JSON values, optional member access and `JSON.stringify`.
- `Seqs`: sequence algebra.

The rewrite step can fail outward. In `tryAppleRewrite` the `AppleLLMSession` constructor runs
outside the `try`, and `dispose` runs in the `finally`. An exception from either escapes
`rewriteResponse`. `Rewrite.RewriteResponse` models this as `RewriteEscapes`, and
`Rewrite.RewriteEscapesOnlyFromApple` states exactly when it happens. `ChatFlow` turns it into the
error path of the turn, as the hook's `catch` does.

## Model

| member | source | states |
|---|---|---|
| Entities.Members | services/entities.ts:57 | An element contributes its `businesses` list when that is non-empty, and otherwise itself; never nothing. |
| Entities.FirstPresent | services/entities.ts:61-66 | The `??` chain: the result is the first present option, every option before it being absent; absent only when all are. |
| Entities.Normalize | services/entities.ts:60-82 | The normalised record copies id, name, url, phone, rating, price, distance, location and coordinates from the business. Categories, reservation url and actions come from the business, else from its container. It carries no slots and no raw summary fields. |
| Entities.NormalizeSummary | services/entities.ts:61-66 | The summary is the first present of the business's contextual, short and biz summaries, then the container's contextual and short summaries, in that order. |
| Entities.FlattenOne | services/entities.ts:57-82 | One element yields exactly one normalised record per member, in member order. |
| Entities.Flatten | services/entities.ts:56-91 | No flattened record carries slots before the slot step. |
| Entities.FlattenPlainRecord | services/entities.ts:57 | An element without a `businesses` list flattens to its own normalised record alone. |
| Entities.AttachOneShape | services/entities.ts:85-87 | The slot step changes only `mockSlots`, and sets it exactly when the record is reservable. |
| Entities.AttachOneCache | services/entities.ts:85-86 | The slot step keeps every cache entry and adds the record's key `id \|\| name` exactly when the record is reservable. |
| Entities.AttachSlotsShape | services/entities.ts:84-87 | Over a whole list: each record changes only in `mockSlots`, which are set iff the record is reservable. |
| Entities.AttachSlotsKeepsCache | services/entities.ts:86 | Attaching slots never changes or drops an existing cache entry. |
| Entities.AttachSlotsCacheKeys | services/entities.ts:86 | After attaching, a key is cached iff it was before or belongs to a reservable record of the list. |
| Entities.AttachSlotsConsistent | services/entities.ts:86 | Every reservable record carries the very list the cache holds for its key at the end, so records sharing a key share slots. |
| Entities.DedupKey | services/entities.ts:96 | The key `id \|\| name \|\| url` is the first non-empty of the three; there is none iff all three are absent or empty. |
| Entities.Dedup | services/entities.ts:93-101 | De-duplication never lengthens the list. |
| Entities.DedupInOrder | services/entities.ts:93-101 | De-duplication keeps exactly the first record of each truthy key, in input order. |
| Entities.DedupKeys | services/entities.ts:95-101 | The kept records carry exactly the keys that occur in the input: none is lost, none invented. |
| Entities.DedupKeysTruthy | services/entities.ts:97 | Every kept record has a non-empty key; keyless records are dropped. |
| Entities.DedupDistinct | services/entities.ts:94-99 | The kept records' keys are pairwise distinct. |
| Entities.DedupKeepsFirsts | services/entities.ts:95-100 | Every kept record is the first record of the input with its key. |
| Entities.DedupKeepsAllFirsts | services/entities.ts:95-100 | Every first record of a key is kept: the first occurrence wins. |
| Entities.SortByRating | services/entities.ts:103 | The rating sort is a permutation of its input. |
| Entities.SortByRatingSpec | services/entities.ts:103 | Ratings (`rating ?? 0`) do not increase along the output, and records of equal rating keep their input order. |
| Entities.NormalizedKeys | services/entities.ts:53-107 | The output of `normalizeEntities` is a permutation of the de-duplicated records; its keys are all non-empty and pairwise distinct. |
| Entities.NormalizedOrder | services/entities.ts:103 | The output is sorted by non-increasing rating, stably with respect to the de-duplicated order, which is input order. |
| Entities.SortedDedupFirsts | services/entities.ts:93-103 | A record of the sorted output is the first record of its key in the flattened list. |
| Entities.NormalizedRecords | services/entities.ts:53-107 | Each output record is the first flattened record of its key, and carries mock slots exactly when it is reservable. |
| Entities.NormalizedCache | services/entities.ts:84-87 | Normalising keeps every cache entry and adds exactly the keys of the reservable flattened records. |
| Entities.NormalizeEntities | services/entities.ts:53-107 | The loops over elements, members and the `seen` set return `Normalized`'s records and leave the cache as `Normalized` says. |
| Entities.AttachElement | services/entities.ts:56-91 | One pass of the outer loop appends the element's records, with slots, in order, and updates the cache accordingly. |
| Entities.AttachMember | services/entities.ts:59-90 | One pass of the inner loop appends the next member's normalised record, with slots. |
| Entities.AttachRecord | services/entities.ts:84-87 | A record gets slots from the memo cache (drawn on first use) iff reservable; the cache changes as the slot step says. |
| Entities.DedupByKey | services/entities.ts:93-101 | The loop with its `seen` set keeps exactly `Dedup`'s records. |
| Entities.StripArticle | services/entities.ts:18 | Removing a leading article leaves a suffix of the name. |
| Entities.MatchIndex | services/entities.ts:11-33 | A nameless entity never matches. A match is an occurrence of the lower-cased name, of the cleaned name when longer than 3, or of the first word when at least 4 long. When the full name occurs, the match is its first occurrence. |
| Entities.MatchIndexFallbacks | services/entities.ts:14-30 | When the full name does not occur, a cleaned name longer than 3 that occurs gives its first occurrence. When that also fails, the result is the first occurrence of the first word if it is at least 4 long, and no match otherwise. |
| Entities.Mentions | services/entities.ts:10-38 | There are no more mentions than entities; each mention is of an input entity, at that entity's match index. |
| Entities.MentionsComplete | services/entities.ts:10-38 | Every input entity that matches has its mention collected. |
| Entities.MentionsEntities | services/entities.ts:10-38 | The mentions' entities are exactly the matching entities, one per matching entity, in input order. |
| Entities.FilteredByText | services/entities.ts:4-51 | An empty text returns the input. When something matches, the result is the collected mentions' entities after the sort by match index. Otherwise it is the first min(5, n) entities. |
| Entities.FilteredByTextCounts | services/entities.ts:40-45 | With any match, the result holds the same entities as the reference filter `Matching`, with the same multiplicities. |
| Entities.MatchingCounts | services/entities.ts:10-38 | The reference filter keeps each entity with a match as often as the input holds it (once, for an input without repeats), and no other entity. |
| Entities.FilteredByTextStable | services/entities.ts:40-45 | With any match, the result's entities with a given match index are the input's entities with that index, in input order: ties keep input order. |
| Entities.FilteredByTextLength | services/entities.ts:43-45 | With any match, the result has one entity per mention, and as many entities as the input has matching ones: there is no truncation. |
| Entities.FilteredByTextMembers | services/entities.ts:10-45 | With any match, an entity is in the result iff it is in the input and the text mentions it. |
| Entities.FilteredByTextIndex | services/entities.ts:41-45 | The k-th result entity is matched at the k-th sorted mention's index. |
| Entities.FilteredByTextOrder | services/entities.ts:41-45 | With any match, the result is in ascending order of match index. |
| Entities.FilteredByTextFallback | services/entities.ts:49-50 | With no match, the result is the first min(5, n) entities. |
| Entities.FilterEntitiesByPersonaText | services/entities.ts:4-51 | The loop that collects, sorts and maps the mentions returns `FilteredByText`. |
| Yelp.FirstReservationAction | services/yelp.ts:214 | `find`: the result is a reservation action of the list, the first one; none iff the list has none. |
| Yelp.SomeReservationActionIff | services/yelp.ts:209-214 | `some` holds iff a reservation action exists, iff `find` returns one. |
| Yelp.GetReservationUrl | services/yelp.ts:212-217 | A non-empty reservation url wins. Otherwise the first reservation action's non-empty url, else the record's url. The result is null when that choice is absent or blank, and is never empty. |
| Yelp.ReservationUrlOfReservable | services/yelp.ts:208-213 | A non-empty reservation url makes the record reservable and is returned as it is. |
| Yelp.SomeReservableIff | services/yelp.ts:220 | `some(hasReservation)` holds iff some record of the list is reservable. |
| Yelp.HasReservableEntityIff | services/yelp.ts:219-221 | `hasReservableEntity` is false for an absent list and otherwise holds iff some record is reservable. |
| Yelp.FailureValue | services/yelp.ts:91-92 | The thrown value is the body's truthy `error.description`. Failing that, the truthy body. Failing that, the truthy transport message. Otherwise 'Unknown Yelp API error'. The value is always truthy. |
| Yelp.ErrorFields | services/yelp.ts:103-107 | The object encoded for a non-string value has `status`, the body's `error.code`, the transport `message` and the body as `data`, each iff it is defined, and no other member. |
| Yelp.TerminalMessageCases | services/yelp.ts:91-107 | The thrown text follows the priority chain. A truthy string description or body is thrown as it is. With neither, the thrown text is the transport message or 'Unknown Yelp API error'. A non-string value is thrown as the JSON text of `ErrorFields`, whose `data` is the body. The text is never empty. |
| Yelp.Retry | services/yelp.ts:62-107 | The policy makes between 1 and retries + 1 attempts, with one sleep between consecutive attempts. It stops before its last allowed attempt only on an outcome it does not retry. It succeeds iff the last attempt got a reply, with that reply's data. Otherwise it fails with `Unauthorized` for a 401 and with the last attempt's status, body and message for anything else. |
| Yelp.RetryDelaysDouble | services/yelp.ts:81-88 | The i-th sleep is the initial back-off doubled i times. |
| Yelp.RetryOutcome | services/yelp.ts:68-85 | Every attempt but the last got 429, 500, 503 or 504. |
| Yelp.RetryUnauthorized | services/yelp.ts:77-79 | A 401 ends the request after one attempt with the 'Unauthorized' error, whatever retries remain. |
| Yelp.DefaultRetryPolicy | services/yelp.ts:62-89 | With the defaults there are at most 3 attempts, with sleeps of 600 then 1200 ms. |
| Yelp.TerminalFailure | services/yelp.ts:91-107 | A non-401 failure that is not retried, or has no retries left, ends the request on that attempt with its status, body and message. |
| Yelp.ScriptedNetwork.Post | services/yelp.ts:145-152 | Each POST records its payload and receives the next scripted outcome. |
| Yelp.RequestWithRetry | services/yelp.ts:62-109 | The recursive retry returns `Retry`'s result and delays, and posts the same payload once per attempt. |
| Yelp.Payload | services/yelp.ts:138-142 | The payload carries the query and user context, and `chat_id` iff the session holds a non-empty one. |
| Yelp.SendChatSpec | services/yelp.ts:133-169 | A missing key fails with no POST. Otherwise at least one and at most 6 payloads are posted, each with the held chat id or none. A reply's non-empty chat id becomes the session's. Unless the internal-error recovery fires, the session keeps its chat id when the reply carries none and on every other failure. |
| Yelp.NoRecoveryWithoutChatId | services/yelp.ts:138-167 | Without a chat id there is one request round, no recovery, and no payload carries `chat_id`. |
| Yelp.UnauthorizedIsFinal | services/yelp.ts:77-79 | A 401 ends `sendChat` after a single POST with 'Unauthorized', the chat id untouched. |
| Yelp.UnauthorizedNotInternal | services/yelp.ts:160-162 | The 'Unauthorized' message never triggers the internal-error recovery. |
| Yelp.ChatIdCarriedForward | services/yelp.ts:154-156 | A reply's non-empty chat id is stored, so the next call's payload carries it. |
| Yelp.InternalErrorDropsChatId | services/yelp.ts:159-166 | An internal error while holding a chat id clears it and re-runs the call once as a fresh call; that round's payloads all carried the stale id. |
| Yelp.InternalFailureMessage | services/yelp.ts:91-92 | The server's internal-error body yields its description as the thrown message. |
| Yelp.InternalDescriptionIsInternal | services/yelp.ts:161 | That description is recognised as internal. |
| Yelp.StaleChatIdRecovery | services/yelp.ts:133-169 | Three 500s and then a reply, from a stale chat id: 4 POSTs in all. The first carries the stale id, the last carries none, and the call succeeds. |
| Yelp.YelpSession.constructor | services/yelp.ts:117-119 | The key is the given one, else the environment's key when non-empty; there is no chat id. |
| Yelp.YelpSession.Reset | services/yelp.ts:121-123 | The chat id is cleared. |
| Yelp.YelpSession.GetChatId | services/yelp.ts:125-127 | Returns the chat id held. |
| Yelp.YelpSession.SetChatId | services/yelp.ts:129-131 | Stores the given chat id. |
| Yelp.YelpSession.SendChat | services/yelp.ts:133-169 | The result, the new chat id and every payload posted are those of `SendChatSpec`, from the old chat id and the network's script. |
| Yelp.ReverseGeocode | services/yelp.ts:172-205 | A city is returned only with a key, a reply and a first business with a location; it is that business's non-empty city. Conversely, such a city is always returned. |
| Booking.GenerateMockSlots | utils/booking.ts:5-28 | A draw yields 3 slots, or 4 when the draw adds one, taken from the six fixed times. |
| Booking.GenerateMockSlotsIsSlotDraw | utils/booking.ts:5-27 | Every draw is 3 or 4 distinct members of the six times, sorted by the time key. |
| Booking.AllSlotsDistinct | utils/booking.ts:6-13 | No fixed time is listed twice. |
| Booking.FirstIndex | utils/booking.ts:22-23 | The index where `split` cuts: no separator before it, and a separator at it unless it is the end. |
| Booking.DecimalValue | utils/booking.ts:23 | `Number` of a string of digits is its decimal value. |
| Booking.SplitAtSeparator | utils/booking.ts:22 | Splitting "time period" at its space gives back the time and the period. |
| Booking.HourAndMinutes | utils/booking.ts:23 | Splitting "H:MM" at the colon gives back the hour and minute digits. |
| Booking.TimeValueOfSlot | utils/booking.ts:21-25 | The key of "H:MM P" is (H == 12 ? 0 : H) * 60 + MM, plus 720 when P is "PM". |
| Booking.AvailabilityLookup | utils/booking.ts:35-40 | A cached id returns its cached list, and a new id a fresh draw. |
| Booking.AvailabilityStores | utils/booking.ts:36-39 | Afterwards the id maps to the returned list, every other entry is unchanged, and no other key appears. |
| Booking.AvailabilityRepeats | utils/booking.ts:35-40 | A second lookup of the same id returns the first one's list, whatever the second draw. |
| Booking.AvailabilityKeepsDraws | utils/booking.ts:35-40 | On a cache of draws, a lookup returns a draw and leaves a cache of draws. |
| Booking.SlotCache.constructor | utils/booking.ts:30 | The memo cache starts empty. |
| Booking.SlotCache.GetMockAvailability | utils/booking.ts:35-40 | The returned list and the new cache are those of `Availability`. The list is a valid draw, and every cached list stays one. |
| Context.TimeOfDay | utils/context.ts:7-14 | Each bucket holds exactly its hours: [5,12) morning, [12,17) afternoon, [17,21) evening, the rest night. |
| Context.Place | utils/context.ts:17 | The city when non-empty, else 'your area'; never empty. |
| Context.PartsOrder | utils/context.ts:22-31 | The header comes first. With weather it is followed by temperature, description and location; without, by the location alone. A radius clause comes last, present iff a non-zero radius is given. |
| Context.RadiusWording | utils/context.ts:30 | The clause says "mile" iff the radius is exactly 1, and "miles" otherwise. |
| Context.ContextStringStart | utils/context.ts:22-32 | The context string opens with the header and ", ". |
| Context.ContextStringEndsWithRadius | utils/context.ts:28-32 | With a radius, the string ends with ", " and the radius clause. |
| Context.ContextStringEndsWithLocation | utils/context.ts:20-32 | Without a radius, the string ends with ", " and the location part. |
| Colors.RemoveFirst | utils/colors.ts:2 | `replace('#', '')` with a string pattern: a text without '#' is unchanged, and otherwise exactly one character shorter. |
| Colors.RemoveFirstAt | utils/colors.ts:2 | The character removed is the first '#', and everything else stays in order. |
| Colors.HexRun | utils/colors.ts:4 | `parseInt` reads the maximal run of hex digits at the front. |
| Strings.HexValue | utils/colors.ts:4 | n hex digits have a value below 16^n. |
| Strings.HexValueConcat | utils/colors.ts:4 | Hex reading is positional: value(a + b) = value(a) * 16^\|b\| + value(b). |
| Colors.ParseIntHex | utils/colors.ts:4-5 | `parseInt(s, 16)` is NaN iff no hex digit follows the leading white space, sign and `0x` prefix. |
| Colors.HexToRgb | utils/colors.ts:1-7 | A colour is produced only from a text that is six characters long once the first '#' is removed. |
| Colors.HexToRgbNull | utils/colors.ts:2-5 | The result is null iff the normalised text is not 6 long or `parseInt` finds no digit. |
| Colors.HexToRgbDigits | utils/colors.ts:1-7 | Six hex digits, with or without '#', give r, g, b equal to the three two-digit bytes. |
| Colors.DigitsParse | utils/colors.ts:4 | A text of hex digits only is read whole. |
| Colors.HexValueSix | utils/colors.ts:6 | The value of six digits is its three two-digit bytes, each below 256, composed big-endian. |
| Colors.ByteSplit | utils/colors.ts:6 | `(num >> 16) & 255`, `(num >> 8) & 255` and `num & 255` extract the three bytes of a 24-bit value. |
| Strings.HexDigitRoundTrip | utils/colors.ts:18 | A printed hex digit reads back as itself. |
| Colors.Channel | utils/colors.ts:14-16 | The rounded channel lies between the two endpoints; at t = 0 it is `from`'s, and at t = 1 `to`'s. |
| Colors.ChannelInRange | utils/colors.ts:14-16 | `Math.round` of the interpolation stays within the endpoints. |
| Colors.HexByte | utils/colors.ts:18 | `toString(16).padStart(2, '0')` of a byte is its high nibble digit then its low nibble digit. |
| Colors.HexByteValue | utils/colors.ts:18 | Those two digits read back as the byte. |
| Colors.FormatHexShape | utils/colors.ts:17-19 | A formatted colour is '#' and six lower-case hex digits. |
| Colors.FormatHexRoundTrip | utils/colors.ts:1-19 | `hexToRgb` of a formatted colour gives the colour back. |
| Colors.MixColorInvalid | utils/colors.ts:13 | When either colour does not parse, `to` is returned unchanged. |
| Colors.MixColorParses | utils/colors.ts:9-19 | With two valid colours, the result is a `#rrggbb` text that parses as the mix at the clamped fraction. |
| Colors.MixColorEndpoints | utils/colors.ts:10-19 | At t ≤ 0 the result parses as `from`'s colour, and at t ≥ 1 as `to`'s. |
| Colors.MixColorClamped | utils/colors.ts:10 | Any t beyond an end behaves exactly like that end. |
| Personas.CatalogueIdsInOrder | constants/personas.ts:25-156 | The catalogue lists the ten personas in their published order. |
| Personas.CatalogueDistinct | constants/personas.ts:25-156 | No persona id is repeated. |
| Personas.IndexByIdKeys | constants/personas.ts:158-164 | The id table holds exactly the catalogue's ids. |
| Personas.IndexByIdEntry | constants/personas.ts:158-164 | With distinct ids, each id maps to its own entry. |
| Personas.IndexByIdValues | constants/personas.ts:158-164 | Every table value is a catalogue entry. |
| Personas.GetPersonaKnown | services/persona.ts:26-28 | A known id gets its own catalogue entry. |
| Personas.GetPersonaFallback | services/persona.ts:26-28 | An unknown id gets the first catalogue entry. |
| Personas.GetPersonaInCatalogue | services/persona.ts:26-28 | Whatever the id, the persona comes from the catalogue. |
| Personas.PrefacedQueryLines | services/persona.ts:30-33 | Read line by line, the prefaced query is the preface's lines, a blank line, then "User: " and the question. |
| Personas.RewritePromptLines | services/persona.ts:35-52 | Read line by line, the prompt is: the persona's rewrite lines, the hint, "", the original query, the Yelp response, "", then the fixed instruction. |
| Personas.RewritePromptHint | services/persona.ts:42-45 | The second line is the reservation hint iff a spot is reservable, and empty otherwise. |
| Personas.PersonaSettings | services/persona.ts:54-62 | The TTS config and avatar are those of the id's catalogue entry, or of the first entry for an unknown id. |
| OpenAi.FallbackBody | services/openai.ts:25-26 | The clipped part is never empty and at most 483 characters long. |
| OpenAi.FallbackContents | services/openai.ts:23-28 | The fallback is "<name> take: " followed by one of three texts. A blank answer gives the default line. A trimmed answer of at most 480 characters appears whole. A longer one is cut to its first 480 characters plus "...". |
| OpenAi.NoKeyNoCall | services/openai.ts:36-39 | Without a key the result is the fallback, whatever the service would answer, and nothing is sent. |
| OpenAi.KeySendsPrompt | services/openai.ts:41-54 | With a key, the persona rewrite prompt is what is sent. |
| OpenAi.RewriteAnswer | services/openai.ts:58-72 | The answer is the trimmed completion iff the call completed with non-blank content, and otherwise the fallback; it is never empty. |
| OpenAi.RewriteFailureEvent | services/openai.ts:61-70 | An error event is reported iff the call was made and did not complete. `isTimeout` holds iff the message is 'rewrite-timeout'. The message defaults to 'Unknown OpenAI error'. |
| Rewrite.RewriteProvider | services/rewrite.ts:8-11 | The provider is Apple iff the flag is non-empty and lower-cases to "apple". |
| Rewrite.GeneratedText | services/rewrite.ts:58-59 | The generated value gives text iff it is a string, or an object whose `text` is a string. |
| Rewrite.AppleEscapesExactly | services/rewrite.ts:47-64 | An exception escapes `tryAppleRewrite` iff all guards pass and the session constructor or `dispose` throws. |
| Rewrite.AppleNullCases | services/rewrite.ts:19-61 | The Apple path gives null when any guard fails (not iOS, no module, a missing export, not 'available'), or when configuring or generating throws or yields no text, unless `dispose` throws. |
| Rewrite.AppleAnswerTrimmed | services/rewrite.ts:51-59 | A string answer is the trimmed text generated from the persona's instructions and the rewrite prompt. |
| Rewrite.OpenAiProviderSkipsApple | services/rewrite.ts:73-79 | With the OpenAI provider, the result is the OpenAI rewrite whatever the platform and module. |
| Rewrite.AppleFallThrough | services/rewrite.ts:74-79 | With the Apple provider, a non-empty Apple answer is returned as it is, and a null or empty one falls through to OpenAI. An escape escapes the rewrite too. |
| Rewrite.RewrittenNonEmpty | services/rewrite.ts:67-80 | Whenever the rewrite settles with a text, that text is non-empty. |
| Rewrite.RewriteEscapesOnlyFromApple | services/rewrite.ts:67-80 | The rewrite escapes iff the provider is Apple, the guards pass, and the constructor or `dispose` throws. |
| Audio.Utf16 | services/audio.ts:13 | A character is one or two UTF-16 code units below 2^16; a BMP character is its own code unit. |
| Audio.CodeUnits | services/audio.ts:12-13 | A string has at least as many code units as characters, each below 2^16. |
| Audio.HashStep | services/audio.ts:14-15 | Each step leaves a signed 32-bit value. |
| Audio.Hash | services/audio.ts:11-16 | The hash of any text is a signed 32-bit value. |
| Audio.HashStepTimes31 | services/audio.ts:14-15 | `((h << 5) - h) + c` then `h & h` is the 32-bit value of 31 * h + c. |
| Audio.HashIsPolynomial | services/audio.ts:10-16 | The hash is the 32-bit value of Σ u[i] * 31^(n-1-i). Wrapping at every step loses nothing beyond a final wrap. |
| Audio.HashText | services/audio.ts:10-18 | The loop over code units returns the hex digest of the hash's absolute value. |
| Audio.DigestShape | services/audio.ts:17 | The digest is 1 to 8 lower-case hex digits, and "0" for the empty text. |
| Audio.StripBold | services/audio.ts:145 | Removing "**" leaves no "**", never lengthens the text, and keeps a first character that is not '*'. |
| Audio.StripBoldIdentity | services/audio.ts:145 | A text without "**" is spoken as it is. |
| Audio.StripBoldIdempotent | services/audio.ts:145 | Stripping twice is stripping once. |
| Audio.StripBoldKeepsText | services/audio.ts:145 | Only asterisks are removed: every other character is kept, in order. |
| Audio.PrepareSpeech | services/audio.ts:125-136 | The request is rejected iff the key is missing or the text is empty: 'Missing ...' for no key, 'No text ...' for no text. |
| Audio.SpeechRequestContents | services/audio.ts:133-145 | The clip is written to `<cache>tts/<persona>_<hash>.mp3`, exactly the path a later lookup for that persona and text searches. The persona's voice is used, and the spoken text has no "**". |
| Audio.NoRequestWithoutKeyOrText | services/audio.ts:126-131 | Without a key or text, the outcome does not depend on the speech service at all. |
| Audio.CachedClipReplayed | services/audio.ts:207-216 | When a fresh fetch fails, a clip cached earlier for the same persona and text is played from the cache. |
| Audio.PlaybackOutcome | services/audio.ts:196-219 | A fresh clip plays when everything succeeds. After any failure a cached clip is replayed; if that replay fails, its error is thrown. With no cached clip, the first error of preparation, fetch or fresh playback is rethrown. |
| Audio.Player.Play | services/audio.ts:98 | The player is playing. |
| Audio.Player.Pause | services/audio.ts:44 | Pausing stops playback, or throws and leaves the player as it was. |
| Audio.Player.Remove | services/audio.ts:45 | Removing releases the player and stops it, or throws and leaves the player as it was. |
| Audio.PlayerRegistry.constructor | services/audio.ts:39 | The registry of active players starts empty. |
| Audio.PlayerRegistry.StopAll | services/audio.ts:41-51 | Each registered player whose `pause` and `remove` succeed ends stopped and removed. One whose `remove` throws ends paused but not removed, and one whose `pause` throws is left as it was. The registry ends empty. |
| Audio.PlayerRegistry.PlayGreetingClip | services/audio.ts:79-111 | Without a bundled clip, or when creating the player throws, the result is null and the registry is unchanged. Otherwise a fresh player joins the registry. It is returned playing when the `try` completes. A throw from the listener or `play` leaves it registered and silent, and one from analytics leaves it registered and playing; both give null. The new player pauses and removes, or throws, as the platform's player does. |
| Audio.PlayerRegistry.StopGreeting | services/audio.ts:103-106 | The stopper unregisters its player and removes it. A throwing `remove` escapes the stopper after the player has left the registry, and leaves the player as it was. |
| Audio.PlayerRegistry.PlaybackFinished | services/audio.ts:93-97 | A finished player leaves the registry. |
| EntityCard.Digits | components/EntityCard.tsx:50 | The cleaned number has only digits and is no longer than the input. |
| EntityCard.FormatPhone | components/EntityCard.tsx:48-58 | The result is null iff the phone is missing or empty. |
| EntityCard.UsLayoutDigits | components/EntityCard.tsx:51-56 | "(ddd) ddd-dddd" is 14 characters and carries exactly the ten digits, in order. |
| EntityCard.FormatPhoneDigits | components/EntityCard.tsx:48-58 | Eleven digits starting with 1 format to the last ten digits, and ten digits format to themselves, as 14 characters. Any other count returns the phone unchanged. |
| EntityCard.FormatPhoneIdempotent | components/EntityCard.tsx:48-58 | Formatting a formatted number changes nothing. |
| EntityCard.Title | components/EntityCard.tsx:17 | The title is the name, else the id, else 'Recommended spot'; never empty. |
| EntityCard.YelpUrl | components/EntityCard.tsx:16 | The link is shown iff the url is present and not blank, and is then the url itself. |
| EntityCard.AfterTap | components/EntityCard.tsx:74-82 | A tap books its slot unless a slot is already booked, which stays. |
| EntityCard.BookedSlotNeverChanges | components/EntityCard.tsx:74-82 | Once a slot is booked, no series of taps changes it. |
| EntityCard.FirstTapWins | components/EntityCard.tsx:74-82 | From an unbooked card, the first tap decides the booking for good. |
| EntityCard.BookingCard.constructor | components/EntityCard.tsx:13 | No slot is booked at first. |
| EntityCard.BookingCard.BookSlot | components/EntityCard.tsx:74-85 | `handleBookSlot` updates the state as `AfterTap` says. |
| EntityCard.BookingCard.Heading | components/EntityCard.tsx:117 | The heading reads 'Booking Confirmed' iff a slot is booked. |
| ChatFlow.QueryOf | hooks/useChatFlow.ts:88-92 | The query is the custom query when non-empty, else the base query; never empty. |
| ChatFlow.UserContextOf | hooks/useChatFlow.ts:112-118 | The locale is en_US, at the device's coordinates or the default (40.7128, -74.006). |
| ChatFlow.NonEmpty | hooks/useChatFlow.ts:148 | `filter(Boolean)` leaves no empty part. |
| ChatFlow.NonEmptyCounts | hooks/useChatFlow.ts:148 | Every non-empty string is kept as often as it occurs in the input: only the empty parts are dropped. |
| ChatFlow.NonEmptyAppend | hooks/useChatFlow.ts:148 | Filtering a concatenation is concatenating the filtered halves, so the kept parts keep their order. |
| ChatFlow.OutboundQueryLayout | hooks/useChatFlow.ts:144-150 | The query sent is context, a blank line, the preface, a blank line and the question. An empty preface is left out along with its separator. |
| ChatFlow.ErrorText | hooks/useChatFlow.ts:217-218 | The error shown is never empty. |
| ChatFlow.ErrorTextCases | hooks/useChatFlow.ts:217-218 | A message mentioning "internal" in any case shows 'Yelp internal error'. Any other message shows as it is, and no message shows 'Unknown error'. |
| ChatFlow.InternalFailureShownAsInternal | hooks/useChatFlow.ts:215-218 | A failure the session treats as internal is shown as 'Yelp internal error'. |
| ChatFlow.AssistantMessages | hooks/useChatFlow.ts:204-212 | An answered turn adds exactly one assistant message, with its text and businesses; a failed turn adds none. |
| ChatFlow.TurnMessages | hooks/useChatFlow.ts:94-212 | A turn adds the user's message first, then one assistant message exactly when answered. |
| ChatFlow.AnsweredText | hooks/useChatFlow.ts:161-202 | A reply with text is answered with a non-empty rewrite. An empty text is kept as it is, with every normalised business. No text gives 'No response text returned.'. The businesses shown are among the normalised ones. |
| ChatFlow.FilteredSubset | hooks/useChatFlow.ts:202 | The businesses kept for the final text are among those given. |
| ChatFlow.FailedTurn | hooks/useChatFlow.ts:215-218 | A failed Yelp call ends the turn with its message shown, as 'Yelp internal error' for an internal failure. |
| ChatFlow.ChatFlow.constructor | hooks/useChatFlow.ts:40-50 | The persona is looked up, the session is new with no chat id, and the state is empty, not loading, with no error and mock mode off. |
| ChatFlow.ChatFlow.RestoreChatId | hooks/useChatFlow.ts:53-65 | A stored non-empty chat id is restored into the session and the state. Otherwise nothing changes. |
| ChatFlow.ChatFlow.ResetChatSession | hooks/useChatFlow.ts:67-75 | The session's chat id, the chat id, the messages and the error are cleared, and loading is off. Weather and mock mode are kept. |
| ChatFlow.ChatFlow.ToggleMock | hooks/useChatFlow.ts:77-80 | Mock mode flips, and nothing else changes. |
| ChatFlow.ChatFlow.BeginTurn | hooks/useChatFlow.ts:92-150 | The user message is appended first, loading is set and the error cleared. The weather is fetched only when none is cached. The outbound query is built from context, preface and question. |
| ChatFlow.ChatFlow.AwaitReply | hooks/useChatFlow.ts:158 | Mock mode returns the mock reply with no POST. Otherwise the session's `sendChat` runs as `SendChatSpec` says. |
| ChatFlow.ChatFlow.TakeReply | hooks/useChatFlow.ts:161-168 | A reply's businesses are normalised through the slot cache and the session's chat id is taken over. A failed call changes neither. |
| ChatFlow.ChatFlow.PostAnswer | hooks/useChatFlow.ts:176-218 | An answered turn appends exactly one assistant message. A failed call or escaping rewrite appends none and sets the normalised error. |
| ChatFlow.ChatFlow.RunDemo | hooks/useChatFlow.ts:86-221 | A whole turn ends with loading off. The messages grow by the user's message, then exactly one assistant message on success. The error is set iff the turn failed. Weather, query, reply, chat id and slot cache change as the step specifications say. |
| Strings.Trim | services/openai.ts:25 | `trim` removes ECMAScript white space from both ends; the result is empty iff the text is all white space. |
| Strings.TrimSlice | services/openai.ts:25 | The trimmed text is the slice of the input that starts after its leading white space, and only white space follows it. |
| Strings.Lower | services/entities.ts:6 | Lower-casing keeps the length and maps each character on its own. |
| Strings.IndexOf | services/entities.ts:14 | `indexOf` is the first position where the pattern occurs, and -1 (None) iff it occurs nowhere. |
| Strings.BeforeFirst | services/entities.ts:18 | `split(sep)[0]` is the text before the first occurrence of the separator, or the whole text when it does not occur; it never contains the separator unless it is the whole text. |
| Strings.SplitJoin | services/persona.ts:43-51 | Splitting a newline-join at newlines gives the first part's lines followed by the other parts, when no other part contains a newline. |
| Strings.PadStart | utils/colors.ts:18 | `padStart` fills on the left to the width and keeps the text at the end; a long enough text is unchanged. |
| Strings.ToHex | services/audio.ts:17 | `toString(16)` gives lower-case hex digits with no leading zero. |
| Strings.ToHexLength | services/audio.ts:17 | A number below 16^k prints in at most k hex digits. |
| Strings.ToHexValue | services/audio.ts:17 | Reading the printed hex digits back gives the number. |
| Sorting.SortBySorted | services/entities.ts:41 | The sort's output is ordered by the key. |
| Sorting.SortByStable | services/entities.ts:41 | The sort is stable: for each key value, the elements carrying it keep their order. |
| Numbers.Round | utils/colors.ts:14 | `Math.round` is the integer within a half of x, halves rounding up. |
| Numbers.RoundBetween | utils/colors.ts:14-16 | Rounding a value between two integers stays between them. |
| Numbers.Clamp | utils/colors.ts:10 | `Math.max(0, Math.min(1, t))` lies in the bounds, and is t itself when t is inside them or the nearer bound otherwise. |
| Numbers.ToInt32 | services/audio.ts:15 | ToInt32 gives a signed 32-bit value congruent to its argument modulo 2^32, and identity on that range. |
| Numbers.LowByte | utils/colors.ts:6 | `& 255` gives a value in 0..255, and identity on that range. |

## Left out

- Network calls (axios, `fetch`, the OpenAI client, the Apple model, ElevenLabs, the weather service) are foreign. Their outcomes are inputs: scripted replies, completion outcomes, Apple session behaviour, `fetch`/`play` results, `weatherFetch`.
- The `sleep` before a retry and the 4.5 s rewrite timer take real time. Delays are returned as a ghost list, a timeout is an outcome variant, and `clearTimeout` is not modelled.
- The lazily created module-level OpenAI client is modelled as "a key is present".
- Telemetry (`trackEvent`) is left out. The one exception is the OpenAI error event, which is returned as data.
- Yelp.Retry: the 429 branch and the 500/503/504 branch are identical except for their condition, so they are merged into one retried-status rule.
- Colors.ParseIntHex: a number is modelled as an unbounded integer. Rounding of very long hex texts to doubles is not modelled, and NaN is None.
- Strings.Lower: only ASCII letters are lower-cased. Unicode case mapping is not modelled.
- String lengths in the model count Unicode scalar values. JavaScript counts UTF-16 code units. Only the hash works on code units (`Audio.CodeUnits`), and clipping at 480 characters counts scalar values.
- Floating-point formatting (`toFixed(4)`, `toLocaleTimeString`, `${radius}`) is an input function or string. The clock hour is an input.
- Reals are exact. `Math.round` and the colour interpolation are on exact reals, not doubles.
- JSON numbers are integers.
- Booking.GenerateMockSlots: the `Math.random` comparator of the shuffle is replaced by an arbitrary permutation of the six times, and the slice length by a boolean draw.
- The slot cache key of a record with neither id nor name is the string "undefined", as `String(undefined)` gives. Prototype keys of a plain JavaScript object ("constructor", "__proto__") are not modelled.
- A raw element whose `businesses` field is not an array counts as having none. A `null` raw element is not modelled, because records are values.
- `getAvatarSource` (a table of bundled image modules) is not modelled, nor the persona catalogue's UI-only fields (accent, tone, colours).
- `playThinkingClip` always returns null, so it is not modelled. `ensureAudioConfig` is not modelled either.
- The greeting asset download, base64 encoding and file writes are left out. The on-disk clips are a set of paths.
- `playAudioFromUri`'s registry updates are not modelled. `playPersonaTTS` is modelled by its outcome only.
- ChatFlow.ChatFlow.RunDemo: haptics, message ids (`Date.now()`), and chat id persistence to the file system are left out. So are the audio started during a turn and analytics. React's asynchronous state updates, stale closures and concurrent turns are not modelled: each method runs to completion.
- ChatFlow.ChatFlow.BeginTurn: a failed weather fetch is the input `None`, and the turn continues.
- The OpenAI module's own `rewriteResponse` alias is not modelled. The hook uses the one in the rewrite module, and `ChatFlow` takes that step as an input function of the environment. `ChatFlow.StandardRewrite` ties it to `Rewrite.RewriteResponse`.
- Yelp.ReverseGeocode: the request parameters and the thrown-error path are collapsed into one reply outcome.
- Json.Lookup: when an object repeats a key, the first member is returned. `JSON.parse` keeps the last one. Objects are taken to have distinct keys.
- Json.Stringify: members are written in their stored order. JavaScript writes integer-like keys first, in ascending numeric order. The fields the core builds have no such keys, but a server body nested under `data` might.
- Entities.SlotKey: a record's name is present or absent, so a JSON `null` name is not told apart from a missing one. For a `null` name the template literal gives the key "null", and the model gives "undefined".
