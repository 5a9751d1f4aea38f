/** The upstream client of src/services/api.js: the shapes of the provider's
    JSON replies, the query-parameter list of a flight search, the error
    raised for a failed search, and the mapping of airport-search items to
    Airport records. The HTTP exchange itself is an input: each operation
    receives the reply the provider gave. */
module Api {
  import opened Js
  import opened Seqs

  // ---------------------------------------------------------------------
  // Flight search reply (searchFlightsWebComplete)

  datatype Place = Place(city: string, displayCode: string)

  /** One entry of a leg's `carriers.marketing`. */
  datatype Carrier = Carrier(name: Option<string>, flightNumber: Option<string>)

  /** One flown segment; `departure` and `arrival` are instants in
      milliseconds since the epoch, as `new Date(...)` reads them. */
  datatype RawLeg = RawLeg(departure: int, arrival: int, origin: Place, destination: Place,
                           marketing: seq<Carrier>)

  datatype RawPrice = RawPrice(raw: real, formatted: string)

  datatype RawFarePolicy = RawFarePolicy(isCancellationAllowed: Option<bool>, isChangeAllowed: Option<bool>)

  datatype RawItinerary = RawItinerary(id: string, price: RawPrice, stopCount: int,
                                       tags: Option<seq<string>>, farePolicy: Option<RawFarePolicy>,
                                       legs: seq<RawLeg>)

  datatype SearchData = SearchData(itineraries: Option<seq<RawItinerary>>)

  /** The parsed JSON body of a flight-search reply. */
  datatype FlightDetails = FlightDetails(message: Option<string>, data: Option<SearchData>)

  /** What `fetch` and `response.json()` produced: a thrown error (network
      failure, unparsable body), or a status flag and a parsed body. */
  datatype FlightsReply = FlightsThrew(error: string) | FlightsResponse(ok: bool, body: FlightDetails)

  /** The fields `fetchFlightDetails` reads from its argument. */
  datatype ApiParams = ApiParams(originSkyId: string, destinationSkyId: string,
                                 originEntityId: string, destinationEntityId: string,
                                 date: string, adults: string, cabinClass: string,
                                 returnDate: Option<string>)

  type Query = seq<(string, string)>

  /** The names of the parameters every flight search sends, in order. */
  const FlightQueryNames: seq<string> :=
    ["originSkyId", "destinationSkyId", "originEntityId", "destinationEntityId", "date",
     "adults", "cabinClass", "currency", "market", "countryCode"]

  function Names(q: Query): seq<string>
  {
    if q == [] then [] else [q[0].0] + Names(q[1..])
  }

  /** `URLSearchParams.get(name)`: the value of the first entry so named. */
  function Get(q: Query, name: string): Option<string>
  {
    if q == [] then None
    else if q[0].0 == name then Some(q[0].1)
    else Get(q[1..], name)
  }

  lemma {:induction false} NamesAt(q: Query, i: nat)
    requires i < |q|
    ensures |Names(q)| == |q| && Names(q)[i] == q[i].0
  {
    if i > 0 {
      NamesAt(q[1..], i - 1);
    } else {
      NamesLength(q);
    }
  }

  lemma {:induction false} NamesLength(q: Query)
    ensures |Names(q)| == |q|
  {
    if q != [] {
      NamesLength(q[1..]);
    }
  }

  /** In a query whose names are all different, `get` of the i-th name
      yields the i-th value. */
  lemma {:induction false} GetAt(q: Query, i: nat)
    requires i < |q| && NoDuplicates(Names(q))
    ensures Get(q, q[i].0) == Some(q[i].1)
  {
    NamesLength(q);
    if i > 0 {
      NamesAt(q, i);
      NamesAt(q, 0);
      assert Names(q[1..]) == Names(q)[1..];
      GetAt(q[1..], i - 1);
    }
  }

  /** `get` of a name that was never appended is null. */
  lemma {:induction false} GetAbsent(q: Query, name: string)
    requires name !in Names(q)
    ensures Get(q, name) == None
  {
    if q != [] {
      GetAbsent(q[1..], name);
    }
  }

  lemma FlightQueryNamesDistinct()
    ensures forall k :: 0 <= k <= 11 ==> NoDuplicates((FlightQueryNames + ["returnDate"])[..k])
  {
  }

  /** What the query of `fetchFlightDetails` carries: the ten fixed
      parameters in order, entity ids falling back to sky ids, adults to 1,
      the cabin class to economy, the market constants, and `returnDate`
      last when it is given. */
  predicate IsFlightQuery(p: ApiParams, q: Query)
  {
    && Names(q) == FlightQueryNames + (if Truthy(p.returnDate) then ["returnDate"] else [])
    && Get(q, "originSkyId") == Some(p.originSkyId)
    && Get(q, "destinationSkyId") == Some(p.destinationSkyId)
    && Get(q, "originEntityId") == Some(if p.originEntityId != "" then p.originEntityId else p.originSkyId)
    && Get(q, "destinationEntityId") == Some(if p.destinationEntityId != "" then p.destinationEntityId else p.destinationSkyId)
    && Get(q, "date") == Some(p.date)
    && Get(q, "adults") == Some(if p.adults != "" then p.adults else "1")
    && Get(q, "cabinClass") == Some(if p.cabinClass != "" then p.cabinClass else "economy")
    && Get(q, "currency") == Some("USD")
    && Get(q, "market") == Some("en-US")
    && Get(q, "countryCode") == Some("US")
    && Get(q, "returnDate") == (if Truthy(p.returnDate) then p.returnDate else None)
    && (Truthy(p.returnDate) ==> q[|q| - 1] == ("returnDate", p.returnDate.value))
  }

  /** The query of `fetchFlightDetails`, built by successive appends. */
  method FlightQuery(p: ApiParams) returns (q: Query)
    ensures IsFlightQuery(p, q)
  {
    q := [];
    q := q + [("originSkyId", p.originSkyId)];
    q := q + [("destinationSkyId", p.destinationSkyId)];
    q := q + [("originEntityId", Or(p.originEntityId, p.originSkyId))];
    q := q + [("destinationEntityId", Or(p.destinationEntityId, p.destinationSkyId))];
    q := q + [("date", p.date)];
    q := q + [("adults", Or(p.adults, "1"))];
    q := q + [("cabinClass", Or(p.cabinClass, "economy"))];
    q := q + [("currency", "USD")];
    q := q + [("market", "en-US")];
    q := q + [("countryCode", "US")];
    if Truthy(p.returnDate) {
      q := q + [("returnDate", p.returnDate.value)];
    }
    NamesLength(q);
    forall i | 0 <= i < |q|
      ensures Names(q)[i] == q[i].0
    {
      NamesAt(q, i);
    }
    assert Names(q) == FlightQueryNames + (if Truthy(p.returnDate) then ["returnDate"] else []);
    FlightQueryNamesDistinct();
    assert Names(q) == (FlightQueryNames + ["returnDate"])[..|q|];
    assert Get(q, "originSkyId") == Some(p.originSkyId) by { GetAt(q, 0); }
    assert Get(q, "destinationSkyId") == Some(p.destinationSkyId) by { GetAt(q, 1); }
    assert Get(q, "originEntityId") == Some(Or(p.originEntityId, p.originSkyId)) by { GetAt(q, 2); }
    assert Get(q, "destinationEntityId") == Some(Or(p.destinationEntityId, p.destinationSkyId)) by { GetAt(q, 3); }
    assert Get(q, "date") == Some(p.date) by { GetAt(q, 4); }
    assert Get(q, "adults") == Some(Or(p.adults, "1")) by { GetAt(q, 5); }
    assert Get(q, "cabinClass") == Some(Or(p.cabinClass, "economy")) by { GetAt(q, 6); }
    assert Get(q, "currency") == Some("USD") by { GetAt(q, 7); }
    assert Get(q, "market") == Some("en-US") by { GetAt(q, 8); }
    assert Get(q, "countryCode") == Some("US") by { GetAt(q, 9); }
    if Truthy(p.returnDate) {
      GetAt(q, 10);
    } else {
      GetAbsent(q, "returnDate");
    }
  }

  const FlightSearchFailed := "Flight search failed"
  const SearchFlightsFailed := "Failed to search flights"

  /** `new Error(data.message || fallback)`: the body's message when it has
      one, the fixed fallback otherwise. */
  function ErrorMessage(message: Option<string>, fallback: string): (r: string)
    ensures Truthy(message) ==> r == message.value
    ensures !Truthy(message) ==> r == fallback
  {
    Or(Str(message), fallback)
  }

  /** What a request helper resolves to or throws, given the reply: the
      whole body on an OK status; otherwise an Error whose message is the
      body's message or the helper's fixed fallback. A failure to reach the
      provider or to read the body propagates unchanged. */
  function ReplyOutcome(reply: FlightsReply, fallback: string): (r: Outcome<FlightDetails>)
    ensures r.Returned? <==> reply.FlightsResponse? && reply.ok
    ensures r.Returned? ==> r.value == reply.body
    ensures reply.FlightsResponse? && !reply.ok ==>
              r.message == (if Truthy(reply.body.message) then reply.body.message.value else fallback)
    ensures reply.FlightsThrew? ==> r == Threw(reply.error)
  {
    match reply
    case FlightsThrew(e) => Threw(e)
    case FlightsResponse(ok, body) =>
      if !ok then Threw(ErrorMessage(body.message, fallback)) else Returned(body)
  }

  /** `fetchFlightDetails` (searchFlightsWebComplete). */
  function FlightSearchOutcome(reply: FlightsReply): (r: Outcome<FlightDetails>)
    ensures r.Returned? <==> reply.FlightsResponse? && reply.ok
    ensures reply.FlightsResponse? && !reply.ok && !Truthy(reply.body.message) ==>
              r == Threw("Flight search failed")
  {
    ReplyOutcome(reply, FlightSearchFailed)
  }

  /** `searchFlights` (searchFlights). */
  function SearchFlightsOutcome(reply: FlightsReply): (r: Outcome<FlightDetails>)
    ensures r.Returned? <==> reply.FlightsResponse? && reply.ok
    ensures reply.FlightsResponse? && !reply.ok && !Truthy(reply.body.message) ==>
              r == Threw("Failed to search flights")
  {
    ReplyOutcome(reply, SearchFlightsFailed)
  }

  /** The two helpers differ only in the message of a failed reply that
      carries no message of its own. */
  lemma FallbackMessages(body: FlightDetails, reply: FlightsReply)
    requires !Truthy(body.message)
    ensures FlightSearchOutcome(FlightsResponse(false, body)) == Threw("Flight search failed")
    ensures SearchFlightsOutcome(FlightsResponse(false, body)) == Threw("Failed to search flights")
    ensures reply.FlightsThrew? || reply.ok || Truthy(reply.body.message) ==>
              FlightSearchOutcome(reply) == SearchFlightsOutcome(reply)
  {
  }

  // ---------------------------------------------------------------------
  // Airport search (searchAirport)

  datatype FlightParams = FlightParams(skyId: Option<string>, localizedName: Option<string>,
                                       iataCode: Option<string>)

  datatype Presentation = Presentation(title: Option<string>, suggestionTitle: Option<string>)

  /** One item of the airport-search reply's `data` array. */
  datatype RawPlace = RawPlace(relevantFlightParams: Option<FlightParams>, skyId: Option<string>,
                               entityId: Option<string>, presentation: Option<Presentation>)

  datatype Airport = Airport(code: string, name: string, city: string, skyId: string, entityId: string)

  /** The airport-search reply: a thrown error, or a status flag and the
      body's `data` when it is an array (None when missing or not an array). */
  datatype SuggestReply = SuggestThrew | SuggestResponse(ok: bool, data: Option<seq<RawPlace>>)

  // `item.relevantFlightParams?.x` and `item.presentation?.x`
  function FlightParam(item: RawPlace, field: FlightParamField): Option<string>
  {
    match item.relevantFlightParams
    case None => None
    case Some(fp) =>
      match field
      case SkyIdParam => fp.skyId
      case LocalizedName => fp.localizedName
      case IataCode => fp.iataCode
  }

  datatype FlightParamField = SkyIdParam | LocalizedName | IataCode

  function Title(item: RawPlace): Option<string>
  {
    if item.presentation.Some? then item.presentation.value.title else None
  }

  function SuggestionTitle(item: RawPlace): Option<string>
  {
    if item.presentation.Some? then item.presentation.value.suggestionTitle else None
  }

  /** `name.includes(',') ? name.split(',')[0] : name`: the text before the
      first comma, or all of name when it has none. */
  function BeforeComma(name: string): (r: string)
    ensures ',' !in r
    ensures |r| <= |name| && r == name[..|r|]
    ensures ',' in name ==> name[|r|] == ','
    ensures ',' !in name ==> r == name
  {
    if name == [] || name[0] == ',' then []
    else
      var rest := BeforeComma(name[1..]);
      assert name == [name[0]] + name[1..];
      [name[0]] + rest
  }

  /** The Airport built from one suggestion item. */
  function ToAirport(item: RawPlace): (a: Airport)
    ensures a.skyId == FirstTruthy([FlightParam(item, SkyIdParam), item.skyId])
    ensures a.entityId == Str(item.entityId)
    ensures a.code == FirstTruthy([Some(a.skyId), FlightParam(item, IataCode), item.entityId])
    ensures a.name == FirstTruthy([Title(item), FlightParam(item, LocalizedName)])
    ensures var named := FirstTruthy([FlightParam(item, LocalizedName), SuggestionTitle(item)]);
            a.city == if named != "" then named else BeforeComma(a.name)
  {
    var skyId := Or(Or(Str(FlightParam(item, SkyIdParam)), Str(item.skyId)), "");
    var entityId := Or(Str(item.entityId), "");
    var code := Or(Or(skyId, Str(FlightParam(item, IataCode))), "");
    var name := Or(Or(Str(Title(item)), Str(FlightParam(item, LocalizedName))), "");
    var city := Or(Or(Str(FlightParam(item, LocalizedName)), Str(SuggestionTitle(item))),
                   if ',' in name then BeforeComma(name) else name);
    FirstTruthyChains(FlightParam(item, SkyIdParam), item.skyId, None);
    FirstTruthyChains(Some(skyId), FlightParam(item, IataCode), item.entityId);
    FirstTruthyChains(Title(item), FlightParam(item, LocalizedName), None);
    FirstTruthyChains(FlightParam(item, LocalizedName), SuggestionTitle(item), None);
    Airport(Or(Or(code, skyId), entityId), name, city, skyId, entityId)
  }

  /** `fetchAirportSuggestions`: one Airport per item, in order, or the empty
      list on a thrown error, a non-OK status or a body without a `data`
      array. */
  function AirportSuggestions(reply: SuggestReply): (r: seq<Airport>)
    ensures (reply.SuggestThrew? || !reply.ok || reply.data.None?) ==> r == []
    ensures reply.SuggestResponse? && reply.ok && reply.data.Some? ==>
              |r| == |reply.data.value| &&
              forall i :: 0 <= i < |r| ==> r[i] == ToAirport(reply.data.value[i])
  {
    match reply
    case SuggestThrew => []
    case SuggestResponse(ok, data) =>
      if !ok || data.None? then []
      else seq(|data.value|, i requires 0 <= i < |data.value| => ToAirport(data.value[i]))
  }
}
