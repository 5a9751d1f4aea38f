/** The shared search session of src/context/FlightsContext.jsx: the last
    search reply, the loading flag, the error message and the applied
    filters, with the two-phase search and the wholesale filter update. */
module FlightsContext {
  import opened Js
  import opened Api

  /** The value of `maxPrice`: null, a number, or the text the range slider
      reports. That text is the decimal text of a number, so it is never
      empty (and always truthy), and `<=` compares the number it spells. */
  datatype PriceLimit = NoLimit | NumberLimit(amount: real) | TextLimit(amount: real)

  /** The filter state. `maxPrice` and `stops` are null when they do not
      constrain; `stops` holds what the stops radio parsed (possibly NaN). */
  datatype Filters = Filters(airlines: seq<string>, maxPrice: PriceLimit, stops: Option<JsInt>,
                             sortBy: string)

  const InitialFilters := Filters([], NoLimit, None, "price")

  class Session {
    var flightDetails: Option<FlightDetails>
    var loading: bool
    var error: Option<string>
    var filters: Filters

    /** The provider's initial state. */
    constructor ()
      ensures flightDetails == None && !loading && error == None
      ensures filters == InitialFilters
      ensures filters.airlines == [] && filters.maxPrice == NoLimit && filters.stops == None
      ensures filters.sortBy == "price"
    {
      flightDetails := None;
      loading := false;
      error := None;
      filters := InitialFilters;
    }

    /** First phase of `searchFlightDetails`, up to the awaited request. */
    method BeginSearch()
      modifies this`loading, this`error
      ensures loading && error == None
    {
      loading := true;
      error := None;
    }

    /** Second phase of `searchFlightDetails`, once the request settled:
        the reply is stored on success, its message on failure (the previous
        reply then stays), and loading ends either way. */
    method EndSearch(outcome: Outcome<FlightDetails>)
      modifies this`flightDetails, this`loading, this`error
      ensures !loading
      ensures outcome.Returned? ==> flightDetails == Some(outcome.value) && error == old(error)
      ensures outcome.Threw? ==> flightDetails == old(flightDetails) && error == Some(outcome.message)
    {
      match outcome {
        case Returned(data) =>
          flightDetails := Some(data);
        case Threw(message) =>
          error := Some(message);
      }
      loading := false;
    }

    /** `searchFlightDetails(params)` against the given provider reply;
        returns the query that was sent. */
    method SearchFlightDetails(params: ApiParams, reply: FlightsReply) returns (query: Query)
      modifies this`flightDetails, this`loading, this`error
      ensures !loading && filters == old(filters)
      ensures IsFlightQuery(params, query)
      ensures error.None? <==> FlightSearchOutcome(reply).Returned?
      ensures error.Some? ==> error == Some(FlightSearchOutcome(reply).message)
      ensures error.None? ==> flightDetails == Some(reply.body)
      ensures error.Some? ==> flightDetails == old(flightDetails)
    {
      BeginSearch();
      query := FlightQuery(params);
      EndSearch(FlightSearchOutcome(reply));
    }

    /** `applyFilters`: the new filters replace the old ones wholesale. */
    method ApplyFilters(newFilters: Filters)
      modifies this`filters
      ensures filters == newFilters
    {
      filters := newFilters;
    }
  }
}
