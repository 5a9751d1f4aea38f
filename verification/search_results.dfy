/** The result list of src/components/SearchResults.jsx: each raw
    itinerary becomes a flat Flight record, the records pass the airline,
    price and stops filters, and a stable sort orders what remains. */
module SearchResults {
  import opened Js
  import opened Seqs
  import opened Api
  import opened FlightsContext

  datatype FarePolicy = FarePolicy(isRefundable: bool, isChangeable: bool)

  /** A normalised flight. The record keeps the departure and arrival
      instants (milliseconds) in place of their locale-formatted texts, and
      like the source it has no numeric duration field: only the text. */
  datatype Flight = Flight(id: string, airline: string, flightNumber: string,
                           departure: int, arrival: int,
                           origin: string, destination: string, duration: string,
                           stops: int, price: real, formattedPrice: string, cabinClass: string,
                           farePolicy: FarePolicy, tags: seq<string>)

  const UnknownAirline := "Unknown Airline"

  /** The source reads `legs[0]` unguarded, so an itinerary needs a leg. */
  predicate HasLegs(it: RawItinerary)
  {
    |it.legs| > 0
  }

  function FirstLeg(it: RawItinerary): RawLeg
    requires HasLegs(it)
  {
    it.legs[0]
  }

  function LastLeg(it: RawItinerary): RawLeg
    requires HasLegs(it)
  {
    it.legs[|it.legs| - 1]
  }

  /** Minutes from the first leg's departure to the last leg's arrival,
      rounded to the nearest minute, halves up. */
  function DurationMinutes(it: RawItinerary): (minutes: int)
    requires HasLegs(it)
    ensures var span := LastLeg(it).arrival - FirstLeg(it).departure;
            60000 * minutes - 30000 <= span < 60000 * minutes + 30000
  {
    RoundDiv(LastLeg(it).arrival - FirstLeg(it).departure, 60000)
  }

  /** `${Math.floor(d / 60)}h ${d % 60}m` with JavaScript's remainder: the
      hours are floored, and the minutes keep the sign of the duration. */
  function FormatDuration(minutes: int): (text: string)
    ensures minutes >= 0 ==> text == IntToString(minutes / 60) + "h " + IntToString(minutes % 60) + "m"
    ensures minutes < 0 && minutes % 60 != 0 ==>
              text == IntToString(minutes / 60) + "h " + IntToString(minutes % 60 - 60) + "m"
    ensures minutes < 0 && minutes % 60 == 0 ==> text == IntToString(minutes / 60) + "h 0m"
  {
    IntToString(FloorDiv(minutes, 60)) + "h " + IntToString(JsRem(minutes, 60)) + "m"
  }

  lemma FormatDurationExamples()
    ensures FormatDuration(185) == "3h 5m"
    ensures FormatDuration(60) == "1h 0m"
    ensures FormatDuration(-5) == "-1h -5m"
  {
    assert NatToString(3) == "3" && NatToString(5) == "5";
    assert NatToString(1) == "1" && NatToString(0) == "0";
  }

  /** For a non-negative duration the text names whole hours and the
      remaining minutes below 60, and both read back with `parseInt`. */
  lemma FormatDurationReadsBack(minutes: int)
    requires minutes >= 0
    ensures var h, m := minutes / 60, minutes % 60;
            FormatDuration(minutes) == IntToString(h) + "h " + IntToString(m) + "m"
            && 60 * h + m == minutes && 0 <= m < 60
            && ParseInt(IntToString(h)) == Int(h) && ParseInt(IntToString(m)) == Int(m)
  {
    ParseIntOfIntToString(minutes / 60);
    ParseIntOfIntToString(minutes % 60);
  }

  function PlaceText(p: Place): string
  {
    p.city + " (" + p.displayCode + ")"
  }

  /** The flat record of one itinerary. */
  function Normalize(it: RawItinerary): (f: Flight)
    requires HasLegs(it)
    ensures f.id == it.id && f.stops == it.stopCount
    ensures f.price == it.price.raw && f.formattedPrice == it.price.formatted
    ensures f.departure == FirstLeg(it).departure && f.arrival == LastLeg(it).arrival
    ensures f.origin == PlaceText(FirstLeg(it).origin)
    ensures f.destination == PlaceText(LastLeg(it).destination)
    ensures f.duration == FormatDuration(DurationMinutes(it))
    ensures f.cabinClass == "economy"
    ensures var carriers := FirstLeg(it).marketing;
            if |carriers| == 0 then f.airline == UnknownAirline && f.flightNumber == ""
            else f.airline == (if Truthy(carriers[0].name) then carriers[0].name.value else UnknownAirline)
                 && f.flightNumber == Str(carriers[0].flightNumber)
    ensures f.farePolicy.isRefundable <==> it.farePolicy.Some? && it.farePolicy.value.isCancellationAllowed == Some(true)
    ensures f.farePolicy.isChangeable <==> it.farePolicy.Some? && it.farePolicy.value.isChangeAllowed == Some(true)
    ensures f.tags == if it.tags.Some? then it.tags.value else []
  {
    var first, last := FirstLeg(it), LastLeg(it);
    var carrier := if |first.marketing| > 0 then Some(first.marketing[0]) else None;
    var policy := it.farePolicy;
    Flight(
      id := it.id,
      airline := Or(if carrier.Some? then Str(carrier.value.name) else "", UnknownAirline),
      flightNumber := Or(if carrier.Some? then Str(carrier.value.flightNumber) else "", ""),
      departure := first.departure,
      arrival := last.arrival,
      origin := PlaceText(first.origin),
      destination := PlaceText(last.destination),
      duration := FormatDuration(DurationMinutes(it)),
      stops := it.stopCount,
      price := it.price.raw,
      formattedPrice := it.price.formatted,
      cabinClass := "economy",
      farePolicy := FarePolicy(
        isRefundable := policy.Some? && policy.value.isCancellationAllowed == Some(true),
        isChangeable := policy.Some? && policy.value.isChangeAllowed == Some(true)),
      tags := if it.tags.Some? then it.tags.value else [])
  }

  /** `itineraries.map(...)`: one flight per itinerary, in input order. */
  function NormalizeAll(its: seq<RawItinerary>): (fs: seq<Flight>)
    requires forall i :: 0 <= i < |its| ==> HasLegs(its[i])
    ensures |fs| == |its|
    ensures forall i :: 0 <= i < |its| ==> fs[i] == Normalize(its[i])
  {
    if its == [] then []
    else
      var rest := NormalizeAll(its[1..]);
      assert forall i :: 1 <= i < |its| ==> its[i] == its[1..][i - 1];
      [Normalize(its[0])] + rest
  }

  // ---------------------------------------------------------------------
  // Filters

  /** `filters.airlines.includes(flight.airline)`, checked only when some
      airline is selected. */
  predicate AirlineSelected(filters: Filters, f: Flight): (r: bool)
    ensures filters.airlines == [] ==> r
    ensures r && filters.airlines != [] ==> exists i :: 0 <= i < |filters.airlines| && filters.airlines[i] == f.airline
    ensures filters.airlines != [] ==> (r <==> f.airline in filters.airlines)
  {
    |filters.airlines| == 0 || f.airline in filters.airlines
  }

  /** `if (filters.maxPrice)`: null and the number 0 leave prices
      unconstrained; any slider text, "0" included, is truthy. */
  predicate PriceLimited(filters: Filters)
  {
    match filters.maxPrice
    case NoLimit => false
    case NumberLimit(amount) => amount != 0.0
    case TextLimit(_) => true
  }

  predicate WithinMaxPrice(filters: Filters, f: Flight): (r: bool)
    ensures filters.maxPrice.NoLimit? ==> r
    ensures filters.maxPrice == NumberLimit(0.0) ==> r
    ensures filters.maxPrice.TextLimit? ==> (r <==> f.price <= filters.maxPrice.amount)
  {
    !PriceLimited(filters) || f.price <= filters.maxPrice.amount
  }

  /** `filters.stops !== null` and then `flight.stops === filters.stops`. */
  predicate StopsMatch(filters: Filters, f: Flight): (r: bool)
    ensures filters.stops.None? ==> r
    ensures filters.stops == Some(NaN) ==> !r
    ensures filters.stops.Some? && filters.stops.value.Int? ==> (r <==> f.stops == filters.stops.value.value)
  {
    filters.stops.None? || StrictEquals(Int(f.stops), filters.stops.value)
  }

  /** A flight is shown when it passes all three filters. Filters that
      select nothing in particular let every flight through. */
  predicate Passes(filters: Filters, f: Flight): (r: bool)
    ensures filters.airlines == [] && filters.maxPrice.NoLimit? && filters.stops.None? ==> r
    ensures filters.stops == Some(NaN) ==> !r
  {
    AirlineSelected(filters, f) && WithinMaxPrice(filters, f) && StopsMatch(filters, f)
  }

  function ByAirline(fs: seq<Flight>, filters: Filters): (r: seq<Flight>)
    ensures IsSubsequence(r, fs)
    ensures forall x :: multiset(r)[x] == if AirlineSelected(filters, x) then multiset(fs)[x] else 0
  {
    if |filters.airlines| > 0 then
      var keep := (f: Flight) => f.airline in filters.airlines;
      FilterIsSubsequence(fs, keep);
      FilterCounts(fs, keep);
      Filter(fs, keep)
    else
      SubsequenceOfItself(fs);
      fs
  }

  function ByMaxPrice(fs: seq<Flight>, filters: Filters): (r: seq<Flight>)
    ensures IsSubsequence(r, fs)
    ensures forall x :: multiset(r)[x] == if WithinMaxPrice(filters, x) then multiset(fs)[x] else 0
  {
    if PriceLimited(filters) then
      var keep := (f: Flight) => f.price <= filters.maxPrice.amount;
      FilterIsSubsequence(fs, keep);
      FilterCounts(fs, keep);
      Filter(fs, keep)
    else
      SubsequenceOfItself(fs);
      fs
  }

  function ByStops(fs: seq<Flight>, filters: Filters): (r: seq<Flight>)
    ensures IsSubsequence(r, fs)
    ensures forall x :: multiset(r)[x] == if StopsMatch(filters, x) then multiset(fs)[x] else 0
  {
    if filters.stops.Some? then
      var keep := (f: Flight) => StrictEquals(Int(f.stops), filters.stops.value);
      FilterIsSubsequence(fs, keep);
      FilterCounts(fs, keep);
      Filter(fs, keep)
    else
      SubsequenceOfItself(fs);
      fs
  }

  /** The three filters in turn. The result is an order-preserving
      subsequence that holds every passing flight as often as the input
      does and no other flight. */
  function FilterFlights(fs: seq<Flight>, filters: Filters): (r: seq<Flight>)
    ensures IsSubsequence(r, fs)
    ensures forall x :: multiset(r)[x] == if Passes(filters, x) then multiset(fs)[x] else 0
  {
    var byAirline := ByAirline(fs, filters);
    var byPrice := ByMaxPrice(byAirline, filters);
    var byStops := ByStops(byPrice, filters);
    SubsequenceTransitive(byPrice, byAirline, fs);
    SubsequenceTransitive(byStops, byPrice, fs);
    byStops
  }

  lemma FilterFlightsMembership(fs: seq<Flight>, filters: Filters)
    ensures forall x :: x in FilterFlights(fs, filters) <==> x in fs && Passes(filters, x)
  {
    var r := FilterFlights(fs, filters);
    forall x
      ensures x in r <==> x in fs && Passes(filters, x)
    {
      assert x in r <==> multiset(r)[x] > 0;
      assert x in fs <==> multiset(fs)[x] > 0;
    }
  }

  /** With no airline, no price limit and no stop count, every flight stays. */
  lemma UnconstrainedFiltersKeepAll(fs: seq<Flight>, filters: Filters)
    requires filters.airlines == [] && !PriceLimited(filters) && filters.stops.None?
    ensures FilterFlights(fs, filters) == fs
  {
  }

  // ---------------------------------------------------------------------
  // Sorting

  function PriceKey(f: Flight): real
  {
    f.price
  }

  /** `(a.durationInMinutes || 0)`: the record has no such field, so every
      flight reads 0. */
  function DurationKey(f: Flight): real
  {
    0.0
  }

  /** The comparator's fallback `return 0`. */
  function NoKey(f: Flight): real
  {
    0.0
  }

  /** The key the comparator subtracts; `departureKey` stands for the
      instant `new Date(departureDate + ' ' + departureTime)` parses. */
  function SortKey(sortBy: string, departureKey: Flight -> real): (key: Flight -> real)
    ensures sortBy == "price" ==> forall f :: key(f) == f.price
    ensures sortBy == "departure" ==> key == departureKey
    ensures sortBy != "price" && sortBy != "departure" ==> forall f, g :: key(f) == key(g)
  {
    if sortBy == "price" then PriceKey
    else if sortBy == "duration" then DurationKey
    else if sortBy == "departure" then departureKey
    else NoKey
  }

  /** `[...flights].sort(comparator)`: a stable sort by the chosen key. */
  function SortFlights(fs: seq<Flight>, sortBy: string, departureKey: Flight -> real): (r: seq<Flight>)
    ensures multiset(r) == multiset(fs)
  {
    SortBy(fs, SortKey(sortBy, departureKey))
  }

  /** Sorting by price orders prices ascending, keeps every flight, and
      keeps flights of equal price in their previous order. */
  lemma SortByPriceOrdersStably(fs: seq<Flight>, departureKey: Flight -> real, price: real)
    ensures var r := SortFlights(fs, "price", departureKey);
            multiset(r) == multiset(fs)
            && (forall i, j :: 0 <= i < j < |r| ==> r[i].price <= r[j].price)
            && WithKey(r, PriceKey, price) == WithKey(fs, PriceKey, price)
  {
    SortBySorted(fs, PriceKey);
    SortByStable(fs, PriceKey, price);
  }

  /** Sorting by duration changes nothing: every comparison is 0. */
  lemma SortByDurationKeepsOrder(fs: seq<Flight>, departureKey: Flight -> real)
    ensures SortFlights(fs, "duration", departureKey) == fs
  {
    SortByConstantKey(fs, DurationKey);
  }

  /** An unknown sort key changes nothing either. */
  lemma UnknownSortKeepsOrder(fs: seq<Flight>, sortBy: string, departureKey: Flight -> real)
    requires sortBy != "price" && sortBy != "duration" && sortBy != "departure"
    ensures SortFlights(fs, sortBy, departureKey) == fs
  {
    SortByConstantKey(fs, NoKey);
  }

  /** Sorting by departure orders by the parsed departure instant, stably. */
  lemma SortByDepartureOrdersStably(fs: seq<Flight>, departureKey: Flight -> real, instant: real)
    ensures var r := SortFlights(fs, "departure", departureKey);
            (forall i, j :: 0 <= i < j < |r| ==> departureKey(r[i]) <= departureKey(r[j]))
            && WithKey(r, departureKey, instant) == WithKey(fs, departureKey, instant)
  {
    SortBySorted(fs, departureKey);
    SortByStable(fs, departureKey, instant);
  }

  // ---------------------------------------------------------------------
  // What the component shows

  datatype View =
    | Spinner
    | ErrorText(message: string)
    | NoFlights
    | Results(processed: seq<Flight>, shown: seq<Flight>)

  /** `flightDetails?.data?.itineraries`, absent read as empty. */
  function Itineraries(details: Option<FlightDetails>): seq<RawItinerary>
  {
    if details.Some? && details.value.data.Some? && details.value.data.value.itineraries.Some?
    then details.value.data.value.itineraries.value
    else []
  }

  predicate Renderable(details: Option<FlightDetails>)
  {
    forall i :: 0 <= i < |Itineraries(details)| ==> HasLegs(Itineraries(details)[i])
  }

  /** The branch the component renders: the spinner while loading, then a
      truthy error, then the empty notice, then the processed list (handed to
      the filter panel) and the filtered, sorted list. */
  function Render(loading: bool, error: Option<string>, details: Option<FlightDetails>,
                  filters: Filters, departureKey: Flight -> real): (v: View)
    requires !loading && !Truthy(error) ==> Renderable(details)
    ensures loading ==> v == Spinner
    ensures !loading && Truthy(error) ==> v == ErrorText(error.value)
    ensures v.NoFlights? <==> !loading && !Truthy(error) && |Itineraries(details)| == 0
    ensures !loading && !Truthy(error) && |Itineraries(details)| > 0 ==> v.Results?
    ensures v.Results? ==> |v.processed| == |Itineraries(details)| > 0
    ensures v.Results? ==> v.processed == NormalizeAll(Itineraries(details))
    ensures v.Results? ==> v.shown == SortFlights(FilterFlights(v.processed, filters), filters.sortBy, departureKey)
    ensures v.Results? ==> multiset(v.shown) == multiset(FilterFlights(v.processed, filters))
  {
    if loading then Spinner
    else if Truthy(error) then ErrorText(error.value)
    else if |Itineraries(details)| == 0 then NoFlights
    else
      var processed := NormalizeAll(Itineraries(details));
      Results(processed, SortFlights(FilterFlights(processed, filters), filters.sortBy, departureKey))
  }
}
