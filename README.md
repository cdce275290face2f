# Travel planner server core, modelled in Dafny

This project models the core of a travel-planning web server. Users create
trips (destination, dates, budget, interests, travel type). The server turns
each trip into a day-by-day itinerary, either with a language-model provider
(a chat-completion API or Gemini) or with a built-in mock generator. Users can
then fetch, edit, regenerate and delete these itineraries.

The modules follow the server's files:

- `Text` (`text.dfy`): the JavaScript string operations the core relies on.
  - `trim` and the `\s` character class;
  - ASCII `toLowerCase`/`toUpperCase`;
  - `includes`;
  - decimal rendering of whole numbers.
- `TripModel` (`trip_model.dfy`): the trip schema of `server/models/Trip.js`.
  - required fields;
  - the end-not-before-start validator;
  - the non-negative budget;
  - the travel-type enumeration;
  - the `trim`/`uppercase` setters and the defaults.
- `ItineraryModel` (`itinerary_model.dfy`): the itinerary schema of `server/models/Itinerary.js`.
  - the activity and day constraints;
  - the `trim` setters;
  - the `pre('save')` hook that recomputes every day cost and the total. The hook is an in-place method over an `array` of days, proved against a specification function.
- `MockGenerator` (`mock_generator.dfy`): `generateMockItinerary`.
  - one day record per calendar day and three slots per day;
  - places cycled through the interests;
  - first-match keyword classification;
  - costs around a quarter of the daily budget.

  It is written twice:
  - as the source's loops (`GenerateMock`, `DayActivities`, `SlotActivity`, `RandomPlace`), with `Math.random` as an explicit sequence of draws consumed in the source's order;
  - as the functions `MockDays`, `MockDay` and `MockActivity` that specify them.
- `Providers` (`providers.dfy`): the provider side of `server/services/aiItineraryService.js`.
  - the greedy `\{[\s\S]*\}` extraction of the chat path;
  - the code-fence clean-up of the Gemini path;
  - the provider selection with its fall-back to the mock.

  The network reply and `JSON.parse` are parameters.
- `TripRequests` (`trip_requests.dfy`): the request checks of `createTrip`.
- `Store` (`store.dfy`): the controllers of `tripController.js`, `aiController.js` and `itineraryController.js`.
  - They are methods of a class `TravelStore`, whose fields are the two collections, the unique `tripId` index, an id counter and a creation clock.
  - Its invariant `Valid()` covers:
    - every trip is valid;
    - every stored itinerary passed validation and the save hook;
    - every itinerary belongs to an existing trip of the same user;
    - at most one itinerary per trip.
  - Every method keeps the invariant and states its whole new state.

Three behaviours of the code are easy to miss, and the model keeps them:

- **Empty provider result.** A provider whose document has an empty `days` array is accepted by the provider path (`Providers.ChatDays`, `Providers.GeminiDays`). The controllers then reject it as "Generated itinerary is empty".
- **Unknown interest tag.** With an interest tag that is not in the catalogue, the place is a random entry of the default catalogue, not an entry indexed by the day.
- **The `aiProvider` field.** The field returned by the generation endpoints is the configured provider name (`AI_PROVIDER || 'mock'`), even when the mock actually produced the days.

## Model

| member | source | states |
|---|---|---|
| Text.Trim | server/models/Trip.js:13 | the result is a slice `s[i..j]` of the input with only white space cut off before `i` and after `j`; it has no white space at either end, is empty exactly when the input is all white space, and leaves an already trimmed string unchanged |
| Text.TrimIdempotent | server/models/Trip.js:13 | trimming twice is trimming once |
| Text.ToLower | server/services/aiItineraryService.js:39 | same length, no upper-case ASCII letter left, a character changes exactly when it was an upper-case letter, and each upper-case letter becomes the letter 32 code points above it |
| Text.ToUpper | server/models/Trip.js:37 | same length, no lower-case ASCII letter left, a character changes exactly when it was a lower-case letter, and each lower-case letter becomes the letter 32 code points below it |
| Text.ContainsIff | server/services/aiItineraryService.js:46-50 | the scanning `includes` holds exactly when the pattern occurs at some position |
| Text.ContainsAcrossSeparator | server/services/aiItineraryService.js:61 | a space-free pattern longer than the middle word occurs in `a + " " + mid + " " + b` exactly when it occurs in `a` or in `b` |
| Text.NatToString | server/services/aiItineraryService.js:92 | the rendering of a day number is a non-empty string of digits |
| Text.DecimalRoundTrip | server/services/aiItineraryService.js:92 | reading the rendered digits back gives the number |
| TripModel.ParseTravelType | server/models/Trip.js:44-48 | exactly the six enumerated names are accepted, each mapping back to its own name |
| TripModel.ValidTrip | server/models/Trip.js:10-39 | definition of a stored trip: non-blank trimmed destination, end not before start, non-negative budget, trimmed upper-case currency |
| TripModel.Violations | server/models/Trip.js:10-33 | each schema rule is reported exactly when the draft breaks it, and none is reported exactly when all hold |
| TripModel.UpperCaseKeepsTrimmed | server/models/Trip.js:37-38 | upper-casing a trimmed string leaves it trimmed |
| TripModel.NormalizeCurrency | server/models/Trip.js:34-39 | the stored currency is the upper-cased trimmed input, so it is trimmed and has no lower-case letter |
| TripModel.CastTrip | server/models/Trip.js:3-57 | the draft is stored exactly when destination, date order, budget and travel type are valid; the stored trip is valid and carries the trimmed destination, upper-cased currency (default INR), interests (default empty) and travel type (default solo); otherwise all violations are reported |
| TripRequests.CreateTrip | server/controllers/tripController.js:5-47 | each of the three 400 answers happens exactly under its condition, in source order; otherwise the schema decides, and a stored trip carries the parsed dates, the defaults and the creation stamp |
| TripRequests.Complete | server/controllers/tripController.js:17 | definition of the first guard: destination, start and end dates truthy and a budget that is not `undefined` |
| TripRequests.Draft | server/controllers/tripController.js:37-47 | definition of the object handed to `Trip.create`, with the defaults "INR", `[]` and "solo" for falsy fields |
| TripRequests.MessagesDistinct | server/controllers/tripController.js:17-35 | each of the three 400 checks answers with a message of its own |
| ItineraryModel.WithDayCosts | server/models/Itinerary.js:113-120 | every day cost becomes the sum of that day's activity costs, and nothing else in the day changes |
| ItineraryModel.ValidActivity | server/models/Itinerary.js:3-27 | definition: slot in the enumeration, a place name, no negative cost |
| ItineraryModel.ValidDay | server/models/Itinerary.js:48-75 | definition: day number at least 1, a date, no negative day cost, every activity valid |
| ItineraryModel.ValidDocument | server/models/Itinerary.js:77-95 | definition: no negative total and every day valid |
| ItineraryModel.Saved | server/models/Itinerary.js:109-124 | the hook keeps the trip and user, rewrites the day costs and sets the total to the sum over all days |
| ItineraryModel.ActivitiesCostAppend | server/models/Itinerary.js:115-117 | the cost of a concatenation of activity lists is the sum of their costs |
| ItineraryModel.TotalIsSumOfAllActivities | server/models/Itinerary.js:112-122 | the total is the sum of every activity cost of the itinerary |
| ItineraryModel.TotalIsSumOfDayCosts | server/models/Itinerary.js:112-122 | after the hook, the total equals the sum of the rewritten day costs |
| ItineraryModel.SuppliedCostsIgnored | server/models/Itinerary.js:112-122 | supplied day costs and other day fields never change the costs the hook writes |
| ItineraryModel.SavedIsConsistent | server/models/Itinerary.js:109-124 | a saved itinerary satisfies the cost-aggregation invariant, and saving it again changes nothing |
| ItineraryModel.ActivitiesCostNonNegative | server/models/Itinerary.js:23-27 | with the schema's non-negative activity costs, a day's cost is non-negative |
| ItineraryModel.ActivityCost | server/models/Itinerary.js:116 | an activity that passes the schema contributes a non-negative cost, a null cost counting as 0 |
| ItineraryModel.CastDocument | server/models/Itinerary.js:3-95 | the `trim` setters keep trip, user, total, the number of days, day numbers, dates and activity counts, and leave every summary and note trimmed |
| ItineraryModel.CastDocumentFields | server/models/Itinerary.js:3-95 | field by field: every summary, note, place name, place type, description and address becomes its `Trim`; day costs, each activity's slot and cost, numbers and dates are kept |
| ItineraryModel.CastDocumentIdempotent | server/models/Itinerary.js:3-95 | casting an already cast document changes nothing |
| ItineraryModel.TotalNonNegative | server/models/Itinerary.js:112-122 | non-negative day sums give a non-negative total |
| ItineraryModel.SavedStaysValid | server/models/Itinerary.js:23-121 | a valid document stays valid after the hook, with a non-negative total |
| ItineraryModel.DayCost | server/models/Itinerary.js:114-117 | the inner loop returns the sum of the day's activity costs, a null cost counting as 0 |
| ItineraryModel.SaveHook | server/models/Itinerary.js:109-124 | the hook loop rewrites the day array in place to the recomputed days and returns the total |
| ItineraryModel.SaveDocument | server/models/Itinerary.js:3-124 | a document is stored exactly when its cast form is valid; the stored form is the hook's result, valid, cost-consistent, with trip and user unchanged |
| ItineraryModel.Save | server/models/Itinerary.js:109-124 | the cast-validate-hook sequence over an array computes exactly the specified stored document |
| MockGenerator.Pick | server/services/aiItineraryService.js:40 | `Math.floor(Math.random() * n)` is an index below `n` |
| MockGenerator.DefaultPlaces | server/services/aiItineraryService.js:25-34 | the default catalogue has eight places |
| MockGenerator.InterestPlaces | server/services/aiItineraryService.js:14-23 | every known interest tag has a catalogue of four places |
| MockGenerator.PlacesFor | server/services/aiItineraryService.js:39 | the catalogue of an interest is never empty: the lower-cased tag's catalogue when the tag is known, else the default one |
| MockGenerator.BasePlace | server/services/aiItineraryService.js:36-43 | with interests the place is an entry of the catalogue of interest `n mod len`; without, it is the default entry `n mod 8` |
| MockGenerator.HasKeywordAcross | server/services/aiItineraryService.js:45-52 | appending " in " and a destination without the keywords does not change whether a name matches a keyword group |
| MockGenerator.PlaceTypeFirstMatch | server/services/aiItineraryService.js:45-52 | the first keyword group, in source order, with a hit in the name decides its type; a name with no hit is an "Attraction" |
| MockGenerator.DestinationWithoutKeywordsIsNeutral | server/services/aiItineraryService.js:45-62 | when the destination holds none of the keywords, a place's type is decided by the place alone |
| MockGenerator.SlotCost | server/services/aiItineraryService.js:63 | a cost lies between a quarter of the daily budget and 499 above it |
| MockGenerator.DayCount | server/services/aiItineraryService.js:56 | the day loop (bounded by `daysDiff`) runs no time exactly when the end precedes the start; otherwise its last day is the end date |
| MockGenerator.BudgetPerDayIsFloor | server/services/aiItineraryService.js:6-10 | the per-day budget is the floor of the budget over the days, and with a non-negative budget the base costs of all activities fit in the budget |
| MockGenerator.MockActivity | server/services/aiItineraryService.js:60-87 | activity `idx` of day `i` has slot `idx`, the place name of activity number `3i + idx`, the type of that name, the description "Explore and enjoy <name>. " followed by the slot's sentence, the address "<name>, <destination>", and a cost in the quarter-budget range |
| MockGenerator.DaySummary | server/services/aiItineraryService.js:92-94 | the summary names the day number and destination, plus the interest `i mod len` when there are interests |
| MockGenerator.TravelNotesDistinguishThreeTypes | server/services/aiItineraryService.js:96-104 | family, couple and solo trips each get their own note; friends, business and other share one |
| MockGenerator.DayRecord | server/services/aiItineraryService.js:89-105 | the pushed day is numbered `i + 1`, dated `start + i`, holds the given activities, the day's summary, and the notes sentence of the travel type |
| MockGenerator.MockDay | server/services/aiItineraryService.js:60-105 | generated day `i` is numbered `i + 1`, dated `start + i`, holds the three slot activities of that day, its summary and the travel-type notes |
| MockGenerator.MockActivities | server/services/aiItineraryService.js:60-87 | a day's activities are the three slot activities in order |
| MockGenerator.MockDays | server/services/aiItineraryService.js:56-106 | one day per day of the trip, empty exactly when the end precedes the start |
| MockGenerator.MockDaysShape | server/services/aiItineraryService.js:56-106 | days are numbered from 1 and dated consecutively from the start, each with a morning, afternoon and evening activity |
| MockGenerator.MockCostRange | server/services/aiItineraryService.js:63 | every generated cost lies in `[base, base + 500)` |
| MockGenerator.PlaceNameChoice | server/services/aiItineraryService.js:36-43 | with no interests the place is the default entry `n mod 8`; otherwise it is some entry of the catalogue of interest `n mod len`; the destination is appended in both cases |
| MockGenerator.MockPlaceChoice | server/services/aiItineraryService.js:56-61 | the same, read off activity `k` of generated day `i` as activity number `3i + k` |
| MockGenerator.MockDayCostBounds | server/services/aiItineraryService.js:60-87 | a day's three costs add up to between three times the base and that plus 1497 |
| MockGenerator.PlaceNameNotBlank | server/services/aiItineraryService.js:61 | a generated place name is never blank |
| MockGenerator.BaseCostNonNegative | server/services/aiItineraryService.js:10 | with a non-negative budget, the base cost is non-negative |
| MockGenerator.ActivityRecordIsValid | server/services/aiItineraryService.js:68-86 | an activity record with a non-blank name and a non-negative cost passes the activity schema, before and after trimming |
| MockGenerator.MockActivityIsValid | server/services/aiItineraryService.js:60-87 | every generated activity passes the activity schema, before and after trimming |
| MockGenerator.MockDayIsValid | server/services/aiItineraryService.js:89-105 | every generated day passes the day schema, before and after trimming |
| MockGenerator.MockDaysAreValid | server/services/aiItineraryService.js:3-109 | for a trip with a non-negative budget, the generated days pass the itinerary schema, before and after trimming |
| MockGenerator.RandomPlace | server/services/aiItineraryService.js:36-43 | `getRandomPlace` returns the specified place and consumes one draw exactly when there are interests |
| MockGenerator.SlotActivity | server/services/aiItineraryService.js:60-87 | the slot callback builds the specified activity and consumes the draws of one activity |
| MockGenerator.DayActivities | server/services/aiItineraryService.js:60-87 | the slot map yields the day's three specified activities |
| MockGenerator.GenerateMock | server/services/aiItineraryService.js:3-109 | the day loop builds exactly the specified days |
| Providers.FirstIndex | server/services/aiItineraryService.js:183 | the index of the first occurrence, or none exactly when the character is absent |
| Providers.LastIndex | server/services/aiItineraryService.js:183 | the index of the last occurrence, or none exactly when the character is absent |
| Providers.ExtractBraced | server/services/aiItineraryService.js:183-186 | a match exists exactly when some `{` precedes some `}`; it runs from the first `{` to the last `}` |
| Providers.ExtractBracedDelimited | server/services/aiItineraryService.js:183 | the extracted text starts with `{` and ends with `}` |
| Providers.ExtractBracedKeepsBareObject | server/services/aiItineraryService.js:183 | a reply that is already a bare object is taken whole |
| Providers.ChatDays | server/services/aiItineraryService.js:181-194 | the chat path yields days exactly when the call succeeded, braces were found, the text parsed and `days` is an array; the result is that array |
| Providers.RemoveFences | server/services/aiItineraryService.js:273 | fence removal never lengthens the text |
| Providers.NoFenceLeft | server/services/aiItineraryService.js:273 | after the "```" pass no "```" is left anywhere in the text, whatever the input |
| Providers.CleanGemini | server/services/aiItineraryService.js:273 | the cleaned text is no longer than the reply and is trimmed |
| Providers.CleanGeminiNoFence | server/services/aiItineraryService.js:273 | the cleaned Gemini reply holds no code fence, whatever the input |
| Providers.RemoveFencesKeepsPlainPrefix | server/services/aiItineraryService.js:273 | a prefix without backticks passes through fence removal untouched |
| Providers.CleanGeminiPlainText | server/services/aiItineraryService.js:273 | text without backticks is only trimmed |
| Providers.OpeningFencePass | server/services/aiItineraryService.js:273 | the first pass drops the opening fence with its white space and keeps the shorter closing fence |
| Providers.ClosingFencePass | server/services/aiItineraryService.js:273 | the second pass drops the closing fence |
| Providers.CleanGeminiFencedBlock | server/services/aiItineraryService.js:273 | a body without backticks in a `json` code block comes out as the trimmed body |
| Providers.RemoveFencesShortText | server/services/aiItineraryService.js:273 | a text shorter than the fence is left as it is |
| Providers.TrimStartBeforeBacktick | server/services/aiItineraryService.js:273 | the `\s*` after a fence stops at the next backtick |
| Providers.GeminiDays | server/services/aiItineraryService.js:264-292 | the Gemini path yields days exactly when the call succeeded, the cleaned text parsed and `days` is an array; the result is that array |
| Providers.ConfiguredProvider | server/services/aiItineraryService.js:300 | an unset or empty provider variable means "mock"; otherwise it is the variable's value |
| Providers.KeyMissing | server/services/aiItineraryService.js:301-303 | definition: an absent, empty or placeholder key counts as missing |
| Providers.SelectStrategy | server/services/aiItineraryService.js:303-329 | definition of the dispatch order: mock, then "gemini", then "openai", else mock |
| Providers.SelectStrategyCases | server/services/aiItineraryService.js:299-330 | a provider is called exactly when it is named and a usable key is set; every other configuration, an unknown name included, uses the mock |
| Providers.ProviderDays | server/services/aiItineraryService.js:303-326 | no provider days when the mock is selected or the call failed |
| Providers.GenerateForTrip | server/services/aiItineraryService.js:299-330 | the mock's days are returned whenever the mock is selected or the call failed |
| Providers.GenerateItineraryForTrip | server/services/aiItineraryService.js:299-330 | the dispatch returns the specified days: the provider's days, or the mock's when the mock was selected or the provider path failed |
| Providers.MockSelectedIgnoresProvider | server/services/aiItineraryService.js:303-306 | when the mock is selected, the result is the mock's days whatever the reply and the parser |
| Providers.FailedCallFallsBack | server/services/aiItineraryService.js:308-326 | a failed call falls back to the mock's days under every configuration |
| Providers.ResultIsMockOrProvider | server/services/aiItineraryService.js:299-330 | the result is the mock's days or exactly the selected provider's days, and it is the provider's days whenever that path succeeded |
| Providers.ChatWithoutBracesFallsBack | server/services/aiItineraryService.js:318-326 | a chat reply with no `{ ... }` falls back to the mock |
| Store.AddTripKeepsInvariant | server/controllers/tripController.js:37-47 | storing a valid trip under the next id and stamp keeps the trip and link invariants |
| Store.DropItineraryKeepsInvariant | server/controllers/tripController.js:98 | deleting a trip's itinerary keeps the invariants, and no itinerary of that trip remains |
| Store.RemoveTripKeepsInvariant | server/controllers/tripController.js:99 | removing a trip with no itinerary keeps the invariants |
| Store.AddItineraryKeepsInvariant | server/controllers/itineraryController.js:72-76 | storing a saved itinerary for an owned trip without one keeps the invariants |
| Store.ReplaceItineraryKeepsInvariant | server/controllers/itineraryController.js:34-39 | replacing an itinerary by a saved one for the same trip and user keeps the invariants |
| Store.TravelStore.DropItineraryOf | server/controllers/aiController.js:75 | `Itinerary.deleteOne({ tripId })` removes exactly that trip's itinerary and its index entry |
| Store.TravelStore.AddItinerary | server/controllers/aiController.js:48-52 | the itinerary is stored under a fresh id and indexed by its trip |
| Store.TravelStore.AddTrip | server/controllers/tripController.js:37-47 | the trip is stored under a fresh id, and the clock advances |
| Store.TravelStore.CreateTrip | server/controllers/tripController.js:5-53 | the store changes exactly when the request is accepted; the answer is the request checks' outcome, and a new trip gets the next id |
| Store.TravelStore.GetTrips | server/controllers/tripController.js:55-65 | returns exactly the caller's trips, newest first, with their count |
| Store.TravelStore.GetTrip | server/controllers/tripController.js:67-85 | 404 exactly when the caller owns no such trip; otherwise the trip and its itinerary or null |
| Store.TravelStore.DeleteTrip | server/controllers/tripController.js:87-105 | 404 with nothing changed unless owned; otherwise the trip and its itinerary go, nothing else |
| Store.TravelStore.CreateGenerated | server/controllers/aiController.js:30-52 | the generated days are refused when empty (500) or invalid; otherwise the saved document is stored under a fresh id |
| Store.TravelStore.GenerateItinerary | server/controllers/aiController.js:6-60 | 404 if the trip is not the caller's, 400 if it already has an itinerary; otherwise generate, refuse an empty or invalid result, and store |
| Store.TravelStore.RegenerateItinerary | server/controllers/aiController.js:62-107 | 404 if not owned; otherwise the old itinerary is deleted first, so a refused regeneration leaves the trip without one |
| Store.TravelStore.UpdateItinerary | server/controllers/itineraryController.js:5-45 | 400 without a days array, 404 unless owned; otherwise the days (and a supplied total) replace the stored ones, and the document is saved through validation and the hook |
| Store.TravelStore.CreateItinerary | server/controllers/itineraryController.js:47-82 | 400 without a trip id and days array, 404 unless the trip is owned, 400 if it has an itinerary; otherwise the saved document is stored |
| Store.TravelStore.GetItinerary | server/controllers/itineraryController.js:84-101 | 404 exactly when not owned; otherwise the itinerary with its trip populated, which belongs to the caller |
| Store.TravelStore.DeleteItinerary | server/controllers/itineraryController.js:103-122 | 404 with nothing changed unless owned; otherwise exactly that itinerary and its index entry go |
| Store.OneItineraryPerTrip | server/models/Itinerary.js:79-84 | no two stored itineraries share a trip |
| Store.MessagesDistinct | server/controllers/itineraryController.js:9-69 | every refusal reason of the controllers (these of `itineraryController.js` and the "already exists" and "empty" answers of `aiController.js`) has a message of its own |

## Left out

- HTTPS requests, prompts, request headers and all logging: the provider call is the parameter `Reply`, and `JSON.parse` with the look at `days` is the parameter `Parser`.
- The prompt templates and the choice of provider model are not modelled.
- `Math.random` is a parameter: a sequence of reals in `[0, 1)` indexed by call number.
- Latitude, longitude and the map link of a generated location are not modelled: they are floating point. Their two draws per activity are still counted.
- Dates are whole day numbers. `new Date`, time zones and the millisecond arithmetic of `Math.ceil(.../86400000) + 1` are not modelled. `TripRequests.DateParser` stands for `new Date(s)` with its `isNaN` test.
- Budgets and costs are integers; fractional `Number` values are not modelled.
- `lastUpdated`, `createdAt`/`updatedAt` timestamps: the store keeps a logical clock for `createdAt` (the order `getTrips` sorts by). The hook's `lastUpdated` is not modelled.
- Authentication, ObjectId cast errors, concurrency between requests and the HTTP response bodies are not modelled.
- The shape of `populate` is not modelled: `Store.TravelStore.GetItinerary` returns the itinerary and its trip as a pair, not as one nested document.
- The express error handler that turns a schema refusal (`Store.Invalid`, `TripRequests.SchemaRejected`) into a response is not part of this model.
- `aiPromptUsed` is not modelled: the client may send it and it is only trimmed and stored.
- `Text.ToLower`, `Text.ToUpper`: only ASCII letters change case; the full Unicode case mapping of JavaScript is not modelled.
- `MockGenerator.PlacesFor`: an interest naming an `Object.prototype` member (such as "constructor") is not modelled; it is treated as an unknown tag.
- `MockGenerator.BudgetPerDay`: when the trip span is not positive the source divides by zero or a negative number. That value is never read, because the day loop does not run, so the model uses 0.
- The 500 "Failed to generate itinerary" answers of both generation endpoints (server/controllers/aiController.js:33-40 and 80-88) are not modelled. In the model the interests are strings, never null, and the mock generator cannot fail; under that assumption the dispatch catches every provider failure and falls back to the mock, so the answer cannot happen. In the source a null interest makes `interest.toLowerCase()` throw (server/services/aiItineraryService.js:39); the mock runs outside any `try` (lines 305, 314, 324 and 329), so the exception reaches the controller and produces that 500.
- The "Associated trip not found" answer of `updateItinerary` is not modelled: the store invariant keeps every itinerary's trip, owned by the same user, so it cannot happen. `Store.TravelStore.UpdateItinerary` asserts this.
- The elements of a `days` payload are taken to be day objects. A payload element that Mongoose cannot cast to a day is not modelled.
- The Gemini request's `finishReason`, and a reply that was cut short, are not modelled separately: such a reply fails to parse and falls back like any other.
