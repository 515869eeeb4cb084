# Bus tracker and voice assistant — a verified Dafny model

This project models the logic of a city-bus tracker and the voice assistant
beside it, and proves properties of that model.

- **Fleet** (`fleet.dfy`) models the backend's in-memory store. It holds the
  fixed catalogue of routes, the roster of buses, and the complaint and SOS
  logs. The simulation tick moves every bus 3% of the way toward its next
  stop, advances the stop index cyclically on arrival, recomputes the ETA and
  applies weekend and festival delays. Lookups, the overcrowding toggle, the
  two append-only logs, the admin overview, route aliasing through the
  landmark table and the chat endpoint are modelled too. The store is a
  `class` whose methods update its fields in place, as the Python code does.
  The tick, the lookup and the route read are proved against specification
  functions (`StepBus` and `TickAll`, `BusWithId` and `FindBus`,
  `AliasStops`). The overcrowding toggle and the two log appends state their
  new fields in terms of the old ones. The admin overview is a function whose
  counts are `CountFlagged`.
- **Nlp** (`nlp.dfy`) models the rule-based extraction of an intent and
  entities (location, time, bus number) from transcribed text. The intent,
  location and time are first-match loops, each specified by a ghost predicate
  that says which match is the first one. The bus number is a recursive
  leftmost search whose own contract names the match it returns.
- **Responses** (`responses.dfy`) models the answer dispatch. An intent and a
  location select a handler. The handler looks the location up in the sample
  route table, and the answer is rendered in Hindi or English.
- **Voice** (`voice.dfy`) models the telephone handler. It lower-cases the
  speech, checks for "bus", and finds the first all-digit token. It then
  branches on the HTTP outcome of the lookup.
- **Client** (`client.dfy`) models the map client's pure helpers: the marker
  colour, the most-recently-used list of tracked buses, and the next-stop
  label.
- **Common** (`common.dfy`) holds the shared string and number helpers used by
  the other modules.

Inputs the code takes from the environment become parameters:

- The haversine `distance` is an arrow-typed parameter `dist`, required only
  to be non-negative (`IsDistance`).
- The weekday is a `Weekday` value, rendered as its `%A` name by `DayName`.
- The random delay flags are a function `draws` from bus position to `bool`.
- The `random.choice` calls of the assistant are indices in `Picks`, taken
  modulo the list length.
- The HTTP lookup of the voice handler is an `HttpOutcome` value, produced by
  a `fetch` parameter.

Two points where the model follows the code as written:

- `get_route` rewrites the stop names in the stored catalogue, not just in
  the reply. `Store.GetRoute` therefore changes `routes`.
- The voice handler requests `/bus/{id}`. That path is served by the small
  router of `busroute/backend/buses.py` (buses.py:13-18), not by the store's
  `/buses/{id}`. Its records have no `location` or `eta` key, and an unknown id
  also gets a 200 reply (`{"error": ...}`). So every reply that arrives takes
  the "Error: 'location'" branch. `Voice.GetBusInfo` models `get_bus_info` for
  any outcome of the request; `buses.py` is not part of this model.

## Model

| member | source | states |
|---|---|---|
| Fleet.InitialStateWellFormed | busroute/backend/main.py:89-120 | every route of the catalogue is non-empty and every bus of the roster starts on an existing route at stop index 0, inside that route |
| Fleet.EtaMinutes | busroute/backend/main.py:168 | the ETA is non-negative and within 0.05 of distance·60/max(speed, 1) |
| Fleet.StepBus | busroute/backend/main.py:151-179 | one bus's tick changes only position, stop index, ETA and delay; the remaining distance to the target shrinks to 0.97 of its value in each coordinate; the index advances by one modulo the route length exactly when both pre-move deltas are under 0.0002, and is otherwise unchanged; the ETA is measured to the target captured before the arrival check, plus 5 on weekends and 10 on festival names, and is non-negative; the delay flag is forced on weekends and festival names and is the random draw otherwise |
| Fleet.MoveBus | busroute/backend/main.py:152-179 | the field-by-field in-place update of one bus gives exactly `StepBus` |
| Fleet.TickAll | busroute/backend/main.py:148-181 | each bus of the new roster is `StepBus` of the old bus on its own route with its own draw; a tick keeps the roster's length, ids, routes, speeds and overcrowding flags, keeps every index inside its route, leaves every ETA non-negative, and on a weekend marks every bus delayed |
| Fleet.Store.UpdateBuses | busroute/backend/main.py:148-181 | the loop over the roster leaves `buses` equal to `TickAll` of the old roster for today's day name, and keeps the store's invariants |
| Fleet.DayName | busroute/backend/main.py:150 | a `%A` name is a weekend name exactly for Saturday and Sunday, and is never "Diwali" or "Pongal" |
| Fleet.Simulate | busroute/backend/main.py:148-181 | any number of ticks keeps the roster length, every bus's id, route and overcrowding flag, and every stop index inside its route |
| Fleet.SimulateKeepsIndexInRoute | busroute/backend/main.py:148-164 | from the initial roster and catalogue, after any sequence of ticks, every `next_stop_idx` lies in `[0, len(route))` |
| Fleet.SimulateEtaNonNegative | busroute/backend/main.py:167-179 | after any sequence of ticks every ETA is non-negative |
| Fleet.WeekdayPenalty | busroute/backend/main.py:174-179 | on a weekday no penalty is added and the delay flag is the draw; on Saturday or Sunday the ETA is the computed value plus exactly 5 and the bus is delayed |
| Fleet.FirstTickOfBusOne | busroute/backend/main.py:151-168 | on a weekday with a false delay draw, bus 1 (which starts exactly on its first stop) has its index advanced to 1 by its first tick and, with a zero distance to that stale stop, reports an ETA of 0.0 and no delay |
| Fleet.FindBus | busroute/backend/main.py:193-196 | the position of the first bus with the id, or none exactly when no bus has it |
| Fleet.BusWithId | busroute/backend/main.py:191-196 | the first bus with the id, or none exactly when no bus has it |
| Fleet.Store.GetBus | busroute/backend/main.py:191-196 | the search loop returns `BusWithId` of the roster |
| Fleet.Store.UpdateOvercrowded | busroute/backend/main.py:213-219 | reports whether the id was found; on success only the `overcrowded` field of the first matching bus changes; an unknown id leaves the roster untouched |
| Fleet.OvercrowdedThenLookup | busroute/backend/main.py:213-219 | after setting the flag of a bus, looking that id up returns the bus with the new flag and every other field unchanged |
| Fleet.Store.AddComplaint | busroute/backend/main.py:223-226 | the complaint is appended at the end of the complaint log, `total` is the new length, and nothing else changes |
| Fleet.Store.TriggerSos | busroute/backend/main.py:234-237 | the alert is appended at the end of the SOS log, `total` is the new length, and nothing else changes |
| Fleet.CountFlagged | busroute/backend/main.py:252-253 | the number of buses with a flag is at most the roster size, zero exactly when no bus has it, and the roster size exactly when all have it |
| Fleet.CountAfterReplace | busroute/backend/main.py:252-253 | replacing one bus changes a flag count by the difference between the new and the old bus's flag |
| Fleet.WeekendTickDelaysAll | busroute/backend/main.py:174-176 | after a Saturday or Sunday tick the delayed count equals the number of buses |
| Fleet.FestivalDelay | busroute/backend/main.py:249 | the festival flag computed from a weekday name is always false |
| Fleet.Store.AdminOverview | busroute/backend/main.py:246-257 | the overview reports the roster size, the delayed and overcrowded counts as `CountFlagged` of the roster (each at most the roster size, zero exactly when no bus has the flag), the two log lengths, and a festival flag that is always false; the store is only read |
| Fleet.NumberEndUnique | busroute/backend/main.py:337 | a standalone number that starts at a position has exactly one end |
| Fleet.SearchNumber | busroute/backend/main.py:337 | the leftmost match of `\b(\d+)\b`, or none exactly when there is no match |
| Fleet.SearchFindsLeftmost | busroute/backend/main.py:337 | the search returns exactly the leftmost standalone number of the text |
| Fleet.QueryBusId | busroute/backend/main.py:336-339 | the query yields an id exactly when its lower-cased text holds a standalone number, and the id is `int` of the leftmost such number |
| Fleet.ChatAbout | busroute/backend/main.py:336-350 | no standalone number gives "not understood"; otherwise the reply reports status, ETA and overcrowding of the first bus with that id, or no information when no bus has it |
| Fleet.ChatFindsRenderedId | busroute/backend/main.py:329-350 | the query "where is bus N?" for a rendered id N reports the first bus with id N, or no information when there is none |
| Fleet.Store.AiChat | busroute/backend/main.py:328-352 | over the current roster: "not understood" exactly when the query holds no standalone number; otherwise no information when no bus has the id, or the status, ETA and overcrowding of the first bus with it; the store is only read |
| Fleet.Alias | busroute/backend/main.py:126-131 | a landmark name is replaced by its alias and any other name is kept; no alias is itself a landmark key |
| Fleet.AliasStops | busroute/backend/main.py:203-205 | every stop is renamed through the landmark table while its latitude, longitude and scheduled time are kept |
| Fleet.AliasStopsIdempotent | busroute/backend/main.py:199-206 | aliasing a route twice gives the same stops as aliasing it once |
| Fleet.Store.GetRoute | busroute/backend/main.py:199-206 | an unknown route id returns no stops and leaves the catalogue untouched; otherwise the returned stops are the aliased route, which is also written back into the catalogue |
| Fleet.Store.constructor | busroute/backend/main.py:89-124 | the store starts with the fixed catalogue and roster, empty logs and its invariants |
| Common.NatToStringRoundTrip | busroute/backend/main.py:339 | reading a rendered number with `int` gives the number |
| Common.Words | busroute/backend/voice.py:25 | `split()` yields non-empty words free of whitespace, and no words exactly when the text is all whitespace |
| Common.WordsFirst | busroute/backend/voice.py:25 | the first word runs from the first non-whitespace character up to the next whitespace or the end, and the others are the words of what follows it |
| Common.WordsKeepNonSpace | busroute/backend/voice.py:25 | the words, joined in order, are exactly the non-whitespace characters of the text |
| Nlp.DetectIntent | multilingual-voice-ai/utils/nlp_handler.py:83-91 | the intent is that of the first entry, in table order, with any matching pattern, and `general_inquiry` when no entry matches; it is always a table key or `general_inquiry` |
| Nlp.DetectLocation | multilingual-voice-ai/utils/nlp_handler.py:53-62 | the location is the first keyword, in list order, contained in the text, and is absent when none is |
| Nlp.SearchTime | multilingual-voice-ai/utils/nlp_handler.py:71 | the leftmost match of one time pattern, or none exactly when the pattern matches nowhere |
| Nlp.DetectTime | multilingual-voice-ai/utils/nlp_handler.py:65-74 | the time is the whole match of the first pattern, in list order, that matches, and is absent when none does; it starts with a digit |
| Nlp.SearchBusNumber | multilingual-voice-ai/utils/nlp_handler.py:77-78 | the leftmost match of `bus\s*(\d+[a-zA-Z]*)`, or none exactly when there is no match |
| Nlp.BusNumber | multilingual-voice-ai/utils/nlp_handler.py:77-80 | the bus number is the group captured by the leftmost match of the pattern; it starts with a digit and occurs in the text, and is absent exactly when the pattern matches nowhere |
| Nlp.ExtractIntentAndEntities | multilingual-voice-ai/utils/nlp_handler.py:17-94 | the entity keys are among location, time and bus_number; each entity is the first match on the lower-cased text; the intent is the first matching table entry or `general_inquiry` |
| Nlp.TimingBeatsFare | multilingual-voice-ai/utils/nlp_handler.py:85-91 | "bus time and fare" matches a fare pattern, yet the detected intent is bus_timings, because timings come first |
| Responses.Choose | multilingual-voice-ai/utils/business_logic.py:62-63 | a choice from a non-empty list is a member of it |
| Responses.ChooseReachesAll | multilingual-voice-ai/utils/business_logic.py:62-63 | every member of a list can be chosen |
| Responses.TimingAnswer | multilingual-voice-ai/utils/business_logic.py:58-73 | a known location announces one of its buses and one of its timings; an unknown location gets the not-available answer |
| Responses.ArrivalAnswer | multilingual-voice-ai/utils/business_logic.py:75-89 | a known location announces one of its buses and a wait of 2, 3, 5, 7 or 10 minutes; otherwise the fixed not-available answer |
| Responses.FareAnswer | multilingual-voice-ai/utils/business_logic.py:98-110 | a known location states exactly its table fare (12, 15 or 20); otherwise the generic range answer |
| Responses.AnswerFor | multilingual-voice-ai/utils/business_logic.py:39-50 | each known intent reaches its own handler, any other intent gets the general help answer, every stated fact comes from the table, and an unknown location never yields a table fact |
| Responses.NextBusSentences | multilingual-voice-ai/utils/business_logic.py:65-68 | the timing sentence names the location, the bus and the timing in both languages, and the two languages differ |
| Responses.TimingUnavailableSentences | multilingual-voice-ai/utils/business_logic.py:69-73 | the not-available sentence names the location in both languages, and the two differ |
| Responses.ArrivingSentences | multilingual-voice-ai/utils/business_logic.py:81-84 | the arrival sentence names the location, the bus and the minutes in both languages, and the two differ |
| Responses.RouteSentences | multilingual-voice-ai/utils/business_logic.py:91-96 | `get_route_response` names the location in both languages, and the two differ |
| Responses.FareSentences | multilingual-voice-ai/utils/business_logic.py:102-105 | the fare sentence names the location and the fare in both languages, and the two differ |
| Responses.FixedSentencesDiffer | multilingual-voice-ai/utils/business_logic.py:86-131 | each fixed sentence (arrival unavailable, fare range, complaint, general help, error) differs from its translation |
| Responses.Sentences | multilingual-voice-ai/utils/business_logic.py:58-131 | the sentences of an answer name every fact it carries (bus, timing, minutes, fare, location), and the Hindi and English texts differ |
| Responses.Say | multilingual-voice-ai/utils/business_logic.py:65-68 | the reply is the Hindi sentence exactly when the language is "hindi" and the English sentence exactly when it is anything else |
| Responses.GetBusInfoResponse | multilingual-voice-ai/utils/business_logic.py:28-52 | the returned language is the input language; the text is Hindi exactly for "hindi" and English for every other value |
| Responses.MissingLocationFallsBack | multilingual-voice-ai/utils/business_logic.py:34-46 | a missing location is "", which is not in the table, so no handler states a table fact |
| Responses.NonHindiIsEnglish | multilingual-voice-ai/utils/business_logic.py:58-124 | every language other than "hindi" gets the same reply as English |
| Responses.TableFaresInGenericRange | multilingual-voice-ai/utils/business_logic.py:8-26 | every table fare lies in the quoted generic range of 10 to 25 rupees |
| Voice.GetBusInfo | busroute/backend/voice.py:7-16 | "Bus not found." exactly for a non-200 response; an "Error: " reply exactly for a raised request or a 200 body missing `location` or `eta`, with the quoted key as the message; otherwise a reply naming the bus, its location and its ETA |
| Voice.SpeechText | busroute/backend/voice.py:21 | a missing or empty field gives ""; otherwise each character is the speech's character lower-cased, so no capital is left |
| Voice.VoiceCall | busroute/backend/voice.py:18-28 | a missing speech, speech without "bus" and speech without an all-digit token all get the welcome prompt; otherwise the reply is the lookup reply for the first all-digit token |
| Client.BusIconColor | busroute/busroute-client/src/App.js:10-13 | overcrowded is red whatever the delay; otherwise delayed is orange; green exactly when neither flag is set |
| Client.WithoutBus | busroute/busroute-client/src/App.js:128 | the filtered list holds exactly the entries of other buses and is unchanged when no entry has the id |
| Client.WithoutBusKeepsCounts | busroute/busroute-client/src/App.js:128 | filtering keeps every entry of another bus exactly as many times as it occurred and drops every entry of the given bus |
| Client.WithoutBusIsSubsequence | busroute/busroute-client/src/App.js:128 | filtering keeps the relative order of the surviving entries |
| Client.TrackRecent | busroute/busroute-client/src/App.js:128 | the new entry is first and the list has at most five entries; after it come the leading entries of the old list with other buses, in order, as many as fit; no other entry has the new bus id |
| Client.TrackRecentKeepsOrder | busroute/busroute-client/src/App.js:128 | the surviving old entries keep their relative order |
| Client.TrackRecentIdempotent | busroute/busroute-client/src/App.js:128 | tracking the same bus twice in a row gives the same list as tracking it once |
| Client.TrackRecentKeepsDistinct | busroute/busroute-client/src/App.js:128 | a list without repeated buses never acquires one |
| Client.NextStopLabel | busroute/busroute-client/src/App.js:297 | the stop's name when the index is in range and the name is non-empty, otherwise "End"; never empty |
| Client.PlacedBusShowsItsStop | busroute/busroute-client/src/App.js:297 | a bus the store keeps on its route, shown against the aliased route, is labelled with the aliased name of its target stop |

## Left out

- Floating point: coordinates, speeds and ETAs are exact reals. Float rounding
  is not modelled. For example, bus 5 starts 0.0001 and 0.0002 away from its
  first stop. Over the reals the longitude delta is not under the 0.0002
  threshold, so the model keeps it at index 0. In doubles that delta is
  -0.000199999999992, so the program moves bus 5 to index 1 on its first tick.
- `distance` (main.py:136-143): the haversine trigonometry is replaced by a
  non-negative parameter, because `sin`, `cos` and `atan2` have no exact model
  over reals.
- Fleet.RoundTenth: rounds halves up instead of Python's round-half-even on
  binary floats; only non-negativity and the 0.05 bound are relied on.
- The clock and randomness: `datetime.now()` and `random.choice` are
  parameters, as described above.
- Text handling is ASCII for `lower()`, `\d`, `\w` and `\b`; Unicode case
  folding and non-ASCII digits are not modelled. Whitespace follows Python's
  full `isspace` list.
- Nlp.ExtractIntentAndEntities: the `except` branch returning
  `("general_inquiry", {})` is not modelled, because no step can raise for
  string input.
- Responses.GetBusInfoResponse: the `except` branch that answers with
  `get_error_response` is not modelled, for the same reason. The error
  sentences themselves are rendered, as the `Failure` answer.
- Fleet.Store.UpdateOvercrowded: the message strings of the reply are not
  rendered; the method returns whether the bus was found.
- Fleet.ChatAbout: the reply is a value naming the bus's status, ETA and
  overcrowding, not the formatted English sentence.
- `list_complaints`, `list_sos`, `get_all_buses` and `offline_cache` only
  return the stored lists; `read_root` and `favicon` are static.
- `handle_voice_call`, `process_speech`, TwiML rendering, Twilio, speech
  recognition, text-to-speech, HTTP, JSON decoding, localStorage, React
  rendering and polling are I/O and are not modelled.
- Concurrency between requests to the store is not modelled; every method
  runs alone.
