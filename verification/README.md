# Flight search client — a verified model

This project models the core of a React flight-search client. The model
covers six parts:

- The search form collects two airports, picked from provider suggestions, plus dates, passengers and trip type.
- The submit handler validates the form and builds the request parameters.
- A shared session runs the search and keeps the reply, the loading flag, an error message and the applied filters.
- The results view turns each raw itinerary into a flat flight record, filters by airline, maximum price and exact stop count, and then applies a stable sort.
- A filter panel derives the airline choices and the price ceiling from the flights and edits a local copy of the filters. Its "Apply" replaces the shared filters.
- The service layer builds the flight query string, turns provider failures into errors, and maps airport suggestions to airports.

JavaScript behaviour that matters to the outcome is written out in module `Js`:

- truthiness and `||` on strings;
- `Math.round` of a quotient;
- `Math.floor`;
- the truncating remainder `%`, so a negative duration reads "-1h -5m";
- `${n}` on integers;
- `parseInt`, including NaN, which never `===` anything.

Module `Seqs` holds the array operations the code composes:

- `filter`;
- `[...new Set(...)]`, which keeps first-occurrence order;
- the stable `sort` by a numeric comparator, modelled as an insertion sort on the comparator's key.

One module follows each source file:

| file | module | form |
|---|---|---|
| `js.dfy` | `Js` | functions and lemmas |
| `seqs.dfy` | `Seqs` | functions and lemmas |
| `api.dfy` | `Api` | functions and lemmas; the query builder is a method appending to a list |
| `flights_context.dfy` | `FlightsContext` | class `Session` |
| `search_results.dfy` | `SearchResults` | functions and lemmas |
| `flight_filters.dfy` | `FlightFilters` | functions, lemmas, class `FilterPanel` |
| `flight_search.dfy` | `FlightSearch` | functions, lemmas, class `SearchForm` |

The network is not called. Each request becomes a parameter that stands for what the provider answered:

- a `FlightsReply` is a thrown error, or a status flag with a parsed body;
- a `SuggestReply` is the same for airport suggestions.

A state change that spans an `await` is split into a begin and an end method:

- the `Session` methods `BeginSearch` and `EndSearch`;
- the `SearchForm` methods `BeginSuggestionFetch` and `EndSuggestionFetch`.
- the `SearchForm` methods `BeginSubmit` and `EndSubmit`.

Each pair is also combined into one method.

## Model

| member | source | states |
|---|---|---|
| Js.FirstTruthy | src/services/api.js:118-127 | an `a \|\| b \|\| ...` chain yields "" exactly when no candidate is truthy |
| Js.FirstTruthyPicks | src/services/api.js:118-127 | the chain yields the candidate at the first truthy position |
| Js.RoundDiv | src/components/SearchResults.jsx:23 | `Math.round(n/d)` is the integer nearest to n/d, with halves rounded up |
| Js.FloorDiv | src/components/SearchResults.jsx:34 | `Math.floor(n/d)` is the largest q with d·q ≤ n |
| Js.JsRem | src/components/SearchResults.jsx:34 | `n % d` lies strictly between -d and d; it equals the Euclidean remainder for n ≥ 0, and is that remainder minus d (or 0) for n < 0 |
| Js.NatToString | src/components/SearchResults.jsx:34 | `${n}` is a non-empty run of digits without a leading zero |
| Js.DigitRun | src/components/FlightFilters.jsx:28 | the digit prefix that `parseInt` reads is all digits and stops at a non-digit |
| Js.ParseIntOfIntToString | src/components/FlightFilters.jsx:28 | `parseInt` reads back the decimal text of every integer |
| Js.IntToString | src/components/SearchResults.jsx:34 | `${n}` is a digit run, with a leading '-' for a negative n |
| Js.ParseInt | src/components/FlightFilters.jsx:28 | `parseInt` of "" or of text that starts with neither a digit nor a sign is NaN; an all-digit text parses to its value |
| Seqs.Filter | src/components/SearchResults.jsx:50-66 | a filter result is no longer than its input, and every element passes |
| Seqs.FilterIsSubsequence | src/components/SearchResults.jsx:50-66 | a filter keeps the input order |
| Seqs.FilterCounts | src/components/SearchResults.jsx:50-66 | every passing element keeps all its occurrences; every failing one keeps none |
| Seqs.FilterMembership | src/components/FlightFilters.jsx:25 | x is in the result iff x is in the input and passes |
| Seqs.FilterFilter | src/components/SearchResults.jsx:48-66 | filtering twice is one filter by the conjunction |
| Seqs.FilterConcat | src/components/FlightFilters.jsx:23-25 | filtering distributes over concatenation |
| Seqs.FilterAllPass | src/components/SearchResults.jsx:48-66 | a filter that every element passes changes nothing |
| Seqs.Distinct | src/components/FlightFilters.jsx:9 | `[...new Set(s)]` has no duplicates and contains exactly the elements of s |
| Seqs.DistinctFirstOccurrenceOrder | src/components/FlightFilters.jsx:9 | de-duplicated elements appear in the order of their first occurrences |
| Seqs.Insert | src/components/SearchResults.jsx:69-79 | insertion adds exactly one element |
| Seqs.SortBy | src/components/SearchResults.jsx:69-79 | the sort is a permutation of its input |
| Seqs.SortBySorted | src/components/SearchResults.jsx:69-79 | the sort orders keys ascending |
| Seqs.SortByStable | src/components/SearchResults.jsx:69-79 | elements with equal keys keep their relative order |
| Seqs.SortByConstantKey | src/components/SearchResults.jsx:71-73 | when every comparison is 0, the sort leaves the list unchanged |
| Api.FlightQuery | src/services/api.js:54-72 | the ten parameter names in order, then `returnDate` when truthy. Entity ids fall back to sky ids, adults falls back to "1", the cabin falls back to "economy". Currency USD, market en-US, country US |
| Api.ErrorMessage | src/services/api.js:86 | the error message is the body's message when truthy, else the fixed fallback |
| Api.ReplyOutcome | src/services/api.js:31-35 | an OK reply resolves to its body; a non-OK reply throws the body's message or the fallback; a thrown fetch propagates |
| Api.FlightSearchOutcome | src/services/api.js:82-89 | `fetchFlightDetails` resolves iff the reply is OK; a failed reply without a message throws "Flight search failed" |
| Api.SearchFlightsOutcome | src/services/api.js:28-35 | `searchFlights` resolves iff the reply is OK; a failed reply without a message throws "Failed to search flights" |
| Api.FallbackMessages | src/services/api.js:31-33 | `searchFlights` falls back to "Failed to search flights"; `fetchFlightDetails` falls back to "Flight search failed"; otherwise the two agree |
| Api.BeforeComma | src/services/api.js:124 | `name.split(',')[0]` is the longest comma-free prefix |
| Api.ToAirport | src/services/api.js:116-133 | each field follows its chain of fallbacks. The code is skyId, then IATA code, then entityId. The city is the localized name, then the suggestion title, then the name before its first comma |
| Api.AirportSuggestions | src/services/api.js:105-139 | a thrown error, a non-OK status or a missing `data` array gives []; otherwise there is one airport per item, in order |
| FlightsContext.Session.constructor | src/context/FlightsContext.jsx:7-15 | the session starts with no reply, not loading, no error, and filters {[], null, null, 'price'} |
| FlightsContext.Session.BeginSearch | src/context/FlightsContext.jsx:18-19 | starting a search sets loading and clears the error |
| FlightsContext.Session.EndSearch | src/context/FlightsContext.jsx:20-27 | success stores the reply; failure stores the message and keeps the old reply; loading ends either way |
| FlightsContext.Session.SearchFlightDetails | src/context/FlightsContext.jsx:17-28 | after a search, loading is false and the filters are untouched. The error is null iff the request resolved; on success the reply is the body, and on failure the error is the thrown message and the previous reply remains. The query sent carries every name and value `fetchFlightDetails` appends (`Api.IsFlightQuery`) |
| FlightsContext.Session.ApplyFilters | src/context/FlightsContext.jsx:30-32 | the filters become the argument, with no merging |
| SearchResults.DurationMinutes | src/components/SearchResults.jsx:17-23 | the duration is the first-departure-to-last-arrival span, rounded to the nearest minute |
| SearchResults.FormatDuration | src/components/SearchResults.jsx:34 | a non-negative duration reads as floored hours and the remaining minutes; for a negative one the minutes keep the minus sign of the truncated remainder |
| SearchResults.FormatDurationExamples | src/components/SearchResults.jsx:34 | 185 reads "3h 5m", 60 reads "1h 0m", and -5 reads "-1h -5m" |
| SearchResults.FormatDurationReadsBack | src/components/SearchResults.jsx:34 | for a non-negative duration, the text gives whole hours and minutes below 60 that recompose the duration and parse back |
| SearchResults.Normalize | src/components/SearchResults.jsx:16-44 | the flat record. The airline defaults to "Unknown Airline" and the flight number to "". Stops is the stop count. Refundable and changeable are true only when the policy says true. Tags default to [] |
| SearchResults.NormalizeAll | src/components/SearchResults.jsx:16 | one record per itinerary, in order |
| SearchResults.AirlineSelected | src/components/SearchResults.jsx:50-54 | with no airline selected every flight passes; otherwise a flight passes iff its airline is among the selected |
| SearchResults.WithinMaxPrice | src/components/SearchResults.jsx:56-60 | null or a numeric 0 limit passes every flight; a slider limit passes exactly the flights priced at or below it |
| SearchResults.StopsMatch | src/components/SearchResults.jsx:62-66 | null passes every flight; NaN passes none; a count passes exactly the flights with that stop count |
| SearchResults.Passes | src/components/SearchResults.jsx:48-66 | filters that constrain nothing pass every flight; a NaN stop filter passes none |
| SearchResults.ByAirline | src/components/SearchResults.jsx:50-54 | the airline stage keeps, in order, exactly the selected airlines' flights; an empty selection keeps all |
| SearchResults.ByMaxPrice | src/components/SearchResults.jsx:56-60 | the price stage keeps flights at or below a truthy maximum; null or the number 0 keeps all, while any slider text ("0" too) limits |
| SearchResults.ByStops | src/components/SearchResults.jsx:62-66 | the stops stage keeps flights whose stop count is `===` the filter value; null keeps all |
| SearchResults.FilterFlights | src/components/SearchResults.jsx:48-66 | the result is an order-preserving subsequence that holds each passing flight as often as the input does, and no other flight |
| SearchResults.FilterFlightsMembership | src/components/SearchResults.jsx:48-66 | a flight is shown iff it is in the list and passes all three filters |
| SearchResults.UnconstrainedFiltersKeepAll | src/components/SearchResults.jsx:48-66 | with no airline, no truthy price limit and null stops, the filtered list is the whole list |
| SearchResults.SortKey | src/components/SearchResults.jsx:69-79 | the comparator's key is the price for 'price' and the departure instant for 'departure'; for 'duration' and any other value it is constant |
| SearchResults.SortFlights | src/components/SearchResults.jsx:69 | sorting a copy keeps exactly the same flights |
| SearchResults.SortByPriceOrdersStably | src/components/SearchResults.jsx:70 | the price sort orders prices ascending, is a permutation, and keeps equal prices in order |
| SearchResults.SortByDurationKeepsOrder | src/components/SearchResults.jsx:71-73 | the duration sort returns the filtered list unchanged |
| SearchResults.UnknownSortKeepsOrder | src/components/SearchResults.jsx:78 | any other sort key returns the list unchanged |
| SearchResults.SortByDepartureOrdersStably | src/components/SearchResults.jsx:74-77 | the departure sort orders by the parsed departure instant, stably |
| SearchResults.Render | src/components/SearchResults.jsx:9-79 | spinner while loading; else a truthy error; else "no flights" iff the itinerary list is absent or empty; else the processed list and, shown, exactly its filtered list sorted by the chosen key. Itineraries need legs only on that last path |
| FlightFilters.AirlinesOf | src/components/FlightFilters.jsx:9 | the airline of each flight, in order |
| FlightFilters.UniqueAirlines | src/components/FlightFilters.jsx:9 | the airline choices have no duplicates, and a name is offered iff some flight has that airline |
| FlightFilters.UniqueAirlinesInFirstOccurrenceOrder | src/components/FlightFilters.jsx:9 | the choices follow the order of first occurrence |
| FlightFilters.MaxPrice | src/components/FlightFilters.jsx:10 | for a non-empty list, the ceiling is at least every price and equals one of them; the empty list has none |
| FlightFilters.ChangeFilters | src/components/FlightFilters.jsx:16-38 | only the field the event names changes, and `sortBy` never changes; the slider stores its text, which always limits the price |
| FlightFilters.CheckAppendsAirline | src/components/FlightFilters.jsx:22-23 | checking appends the airline at the end |
| FlightFilters.UncheckRemovesAirline | src/components/FlightFilters.jsx:24-25 | unchecking removes every occurrence of the airline and keeps the others, in order, with their multiplicities |
| FlightFilters.UncheckUndoesCheck | src/components/FlightFilters.jsx:21-26 | unchecking undoes the check of an airline that was not selected |
| FlightFilters.SliderLimitsPrice | src/components/FlightFilters.jsx:29-36 | after the slider moves to an amount, exactly the flights priced at or below it pass, and at "0" only free flights pass |
| FlightFilters.StopsRadioSelects | src/components/FlightFilters.jsx:27-28 | 'null' clears the stops filter; the text of a count selects exactly that count |
| FlightFilters.NonNumericStopsMatchNothing | src/components/FlightFilters.jsx:28 | text that parses to NaN matches no flight |
| FlightFilters.FilterPanel.constructor | src/components/FlightFilters.jsx:6 | the local copy starts as the shared filters |
| FlightFilters.FilterPanel.SyncWithContext | src/components/FlightFilters.jsx:12-14 | the local copy resets to the shared filters |
| FlightFilters.SelectSort | src/components/SearchResults.jsx:100 | choosing a sort replaces only `sortBy` in the shared filters, and the panel's local copy is reset to the new shared filters, dropping unapplied edits |
| FlightFilters.FilterPanel.HandleFilterChange | src/components/FlightFilters.jsx:16-38 | the local copy becomes `ChangeFilters` of its old value |
| FlightFilters.FilterPanel.ApplyFilters | src/components/FlightFilters.jsx:40-42 | the shared filters become the local copy, and the reset leaves the copy as it was |
| FlightSearch.WithField | src/components/FlightSearch.jsx:82-88 | the named field takes the value; every other field is kept |
| FlightSearch.WithFieldUndo | src/components/FlightSearch.jsx:82-88 | writing back a field's old value restores the form |
| FlightSearch.WithAirport | src/components/FlightSearch.jsx:90-105 | choosing an airport sets that side's text to its code and its ids from the airport; nothing else changes |
| FlightSearch.FormatDate | src/components/FlightSearch.jsx:110-112 | an empty date throws "Invalid time value"; a calendar date comes back unchanged |
| FlightSearch.ApiParamsFor | src/components/FlightSearch.jsx:110-135 | a missing sky id or date throws "Please select valid airports and date". Otherwise it throws only on a round trip with no return date, and then with "Invalid time value" from formatting the empty date. Valid params copy the ids and date, take adults from passengers, set cabin "economy", and carry a return date iff the trip is a round trip |
| FlightSearch.RoundTripSendsReturnDate | src/components/FlightSearch.jsx:132-134 | a valid form carries a truthy return date iff the trip is a round trip |
| FlightSearch.ChosenAirportsValidate | src/components/FlightSearch.jsx:90-135 | after two airports with sky ids and a date are chosen, a one-way form validates with those sky ids |
| FlightSearch.InitialFormRejected | src/components/FlightSearch.jsx:7-18 | the untouched form fails validation |
| FlightSearch.SearchForm.constructor | src/components/FlightSearch.jsx:7-26 | the form starts empty: passengers 1, one-way, no suggestions, nothing open or loading |
| FlightSearch.SearchForm.HandleChange | src/components/FlightSearch.jsx:82-88 | the form becomes `WithField` of its old value |
| FlightSearch.SearchForm.SetDropdown | src/components/FlightSearch.jsx:163-164 | focus or blur sets one side's dropdown; the other side's is kept |
| FlightSearch.SearchForm.HandleAirportSelect | src/components/FlightSearch.jsx:90-108 | the form becomes `WithAirport` of its old value, and that side's dropdown closes |
| FlightSearch.SearchForm.BeginSuggestionFetch | src/components/FlightSearch.jsx:37-42 | an empty query clears that side's list and sends nothing; otherwise that side starts loading |
| FlightSearch.SearchForm.EndSuggestionFetch | src/components/FlightSearch.jsx:43-51 | that side's list becomes what `fetchAirportSuggestions` resolved to, and its loading ends |
| FlightSearch.SearchForm.FetchSuggestions | src/components/FlightSearch.jsx:37-69 | one fetch for a side: [] for an empty query, else the mapped suggestions; the other side is untouched |
| FlightSearch.SearchForm.BeginSubmit | src/components/FlightSearch.jsx:114-137 | the parameters are the validated ones; an invalid form alerts "Search failed: " plus the message, stops searching and leaves the session alone; a valid form is searching while the request is awaited, with the session loading and its error cleared |
| FlightSearch.SearchForm.EndSubmit | src/components/FlightSearch.jsx:137-149 | once the search settled the session holds the reply, or the failure message with the previous reply kept; loading ends, `onSearch` is called when given and the form stops searching; the query sent is the one `fetchFlightDetails` builds |
| FlightSearch.SearchForm.Submit | src/components/FlightSearch.jsx:114-149 | an invalid form alerts "Search failed: " plus the message and searches nothing. A valid form runs the search with the query `fetchFlightDetails` builds from the validated parameters: no alert, `onSearch` is called, `returnDate` is sent iff the trip is a round trip; a failed search leaves its message in the session error and keeps the previous reply. `isSearching` ends false |

## Left out

- Network, credentials and JSON parsing: each request's result is a parameter. The airport request's own query parameters (`query`, `locale`) are not modelled.
- FlightSearch.SearchForm.FetchSuggestions: the 300 ms debounce and the effects that trigger it are not modelled. The source builds a new debounced function on every render, so every keystroke's request goes out and the replies may arrive in any order; none of this is modelled, and each fetch completes before the next starts.
- FlightFilters.FilterPanel.SyncWithContext: React runs the effect on every change of the shared filters; the model runs it explicitly at the two places they change, `FilterPanel.ApplyFilters` and `SelectSort`.
- FlightSearch.SearchForm.SetDropdown: blur closes the list at once, without the 200 ms timer.
- FlightSearch.FormatDate: `Date` parsing and `toISOString` are host-library behaviour. Only the two cases a date input can produce are modelled: "" (which throws) and a calendar date (which comes back unchanged).
- Locale formatting: `toLocaleTimeString` and `toLocaleDateString` are not modelled. Flight records keep the departure and arrival instants instead.
- SearchResults.SortKey: the departure sort is modelled with `departureKey`, an arbitrary key standing for the instant parsed from the locale texts.
- FlightFilters.MaxPrice: `Math.max` of an empty list is -Infinity, represented as `None`. `toLocaleString` of the ceiling is not modelled.
- The range slider's text is modelled by the number it spells (`TextLimit`), compared numerically as the source's coercion does; text that spells no number is not modelled.
- The 'number' input branch of `handleFilterChange` is not modelled, because the panel has no such input.
- Js.ParseInt: leading whitespace and `0x` prefixes are not modelled. The panel's radio values are "null", "0", "1" and "2".
- Prices are reals: floating-point rounding and NaN prices are not modelled.
- Timestamps are integer milliseconds; invalid dates are not modelled.
- SearchResults.HasLegs: an itinerary needs at least one leg. The source reads `legs[0]` unguarded and fails on an itinerary without legs.
- `alert` is returned as a value, and `console` logging is not modelled.
- The provider-presence check in `useFlights` is not modelled.
- `setFlightDetails` is exported but is not modelled.
- The `isCheapest` tag rendering is not modelled.
- The view components (`FlightCard.jsx`, `Header.jsx`, `App.js`) are not part of this model.
- Unused service helpers are not modelled: `getFlightDetails`, `searchFlightsWebComplete`, and the request building of `searchFlights`. The error fallback of `searchFlights` is modelled by `Api.SearchFlightsOutcome`. `FlightSearch.jsx` imports `pollFlightResults` and `searchFlightsComplete`, which `api.js` does not define.
- `passengers` starts as the number 1, which is modelled as the text "1". Both reach the query as "1".
