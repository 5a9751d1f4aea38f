/** The search form of src/components/FlightSearch.jsx: the form fields,
    the airport suggestion lists behind the two airport inputs, the choice
    of an airport, and the submission that validates the form, builds the
    request parameters and runs the shared search. */
module FlightSearch {
  import opened Js
  import opened Api
  import opened FlightsContext

  /** The form state `searchParams`; every field holds the text of its input.
      `passengers` starts as the number 1, which every later use reads as
      the text "1". */
  datatype SearchParams = SearchParams(origin: string, destination: string,
                                       originSkyId: string, originEntityId: string,
                                       destinationSkyId: string, destinationEntityId: string,
                                       date: string, returnDate: string,
                                       passengers: string, tripType: string)

  const InitialSearchParams := SearchParams("", "", "", "", "", "", "", "", "1", "one-way")

  /** The field names `handleChange` may receive. */
  datatype FormField =
    | OriginText | DestinationText | OriginSkyId | OriginEntityId
    | DestinationSkyId | DestinationEntityId | Date | ReturnDate | Passengers | TripType

  function Field(p: SearchParams, f: FormField): string
  {
    match f
    case OriginText => p.origin
    case DestinationText => p.destination
    case OriginSkyId => p.originSkyId
    case OriginEntityId => p.originEntityId
    case DestinationSkyId => p.destinationSkyId
    case DestinationEntityId => p.destinationEntityId
    case Date => p.date
    case ReturnDate => p.returnDate
    case Passengers => p.passengers
    case TripType => p.tripType
  }

  /** `{...prev, [name]: value}`: the named field takes the value and every
      other field is kept. */
  function WithField(p: SearchParams, f: FormField, value: string): (q: SearchParams)
    ensures Field(q, f) == value
    ensures forall g :: g != f ==> Field(q, g) == Field(p, g)
  {
    match f
    case OriginText => p.(origin := value)
    case DestinationText => p.(destination := value)
    case OriginSkyId => p.(originSkyId := value)
    case OriginEntityId => p.(originEntityId := value)
    case DestinationSkyId => p.(destinationSkyId := value)
    case DestinationEntityId => p.(destinationEntityId := value)
    case Date => p.(date := value)
    case ReturnDate => p.(returnDate := value)
    case Passengers => p.(passengers := value)
    case TripType => p.(tripType := value)
  }

  /** Setting a field back to the value it had undoes the change. */
  lemma WithFieldUndo(p: SearchParams, f: FormField, value: string)
    ensures WithField(WithField(p, f, value), f, Field(p, f)) == p
  {
  }

  /** The two airport inputs. */
  datatype Side = Origin | Destination

  /** The fields an airport choice on one side sets: text, sky id, entity id. */
  predicate AirportField(side: Side, f: FormField)
  {
    if side.Origin? then f == OriginText || f == OriginSkyId || f == OriginEntityId
    else f == DestinationText || f == DestinationSkyId || f == DestinationEntityId
  }

  /** The form after choosing `airport` on one side: the input shows its
      code and the request ids come from it; all other fields are kept. */
  function WithAirport(p: SearchParams, side: Side, airport: Airport): (q: SearchParams)
    ensures side.Origin? ==> q.origin == airport.code && q.originSkyId == airport.skyId
                             && q.originEntityId == airport.entityId
    ensures side.Destination? ==> q.destination == airport.code && q.destinationSkyId == airport.skyId
                                  && q.destinationEntityId == airport.entityId
    ensures forall g :: !AirportField(side, g) ==> Field(q, g) == Field(p, g)
  {
    if side.Origin? then
      p.(origin := airport.code, originEntityId := airport.entityId, originSkyId := airport.skyId)
    else
      p.(destination := airport.code, destinationEntityId := airport.entityId,
         destinationSkyId := airport.skyId)
  }

  const InvalidTimeValue := "Invalid time value"
  const MissingFields := "Please select valid airports and date"

  /** `formatDate`: `new Date(s).toISOString().split('T')[0]`. A date input
      holds either "" or a calendar date `YYYY-MM-DD`; the empty text is an
      invalid date, on which `toISOString` throws, and a calendar date comes
      back as itself. */
  function FormatDate(s: string): (r: Outcome<string>)
    ensures r.Threw? <==> s == ""
    ensures r.Threw? ==> r.message == InvalidTimeValue
    ensures r.Returned? ==> r.value == s && r.value != ""
  {
    if s == "" then Threw(InvalidTimeValue) else Returned(s)
  }

  /** The validation and the `apiParams` object of `handleSubmit`. */
  function ApiParamsFor(p: SearchParams): (r: Outcome<ApiParams>)
    ensures p.originSkyId == "" || p.destinationSkyId == "" || p.date == "" ==> r == Threw(MissingFields)
    ensures p.originSkyId != "" && p.destinationSkyId != "" && p.date != "" ==>
              (r.Threw? <==> p.tripType == "round-trip" && p.returnDate == "")
    ensures r.Threw? ==> r.message == MissingFields || r.message == InvalidTimeValue
    ensures p.originSkyId != "" && p.destinationSkyId != "" && p.date != "" && r.Threw? ==>
              r == Threw(InvalidTimeValue)
    ensures r.Returned? ==>
              var a := r.value;
              a.originSkyId == p.originSkyId != "" && a.destinationSkyId == p.destinationSkyId != ""
              && a.originEntityId == p.originEntityId && a.destinationEntityId == p.destinationEntityId
              && a.date == p.date != "" && a.adults == p.passengers && a.cabinClass == "economy"
              && (a.returnDate.Some? <==> p.tripType == "round-trip")
              && (a.returnDate.Some? ==> a.returnDate.value == p.returnDate != "")
  {
    if p.originSkyId == "" || p.destinationSkyId == "" || p.date == "" then Threw(MissingFields)
    else
      match FormatDate(p.date)
      case Threw(message) => Threw(message)
      case Returned(date) =>
        var returnDate := if p.tripType == "round-trip" then Some(FormatDate(p.returnDate)) else None;
        if returnDate.Some? && returnDate.value.Threw? then Threw(returnDate.value.message)
        else
          Returned(ApiParams(
            originSkyId := p.originSkyId,
            destinationSkyId := p.destinationSkyId,
            originEntityId := p.originEntityId,
            destinationEntityId := p.destinationEntityId,
            date := date,
            adults := p.passengers,
            cabinClass := "economy",
            returnDate := if returnDate.Some? then Some(returnDate.value.value) else None))
  }

  /** A valid form carries a (non-empty) return date exactly on a round
      trip, so the request sends `returnDate` exactly then. */
  lemma RoundTripSendsReturnDate(p: SearchParams)
    requires ApiParamsFor(p).Returned?
    ensures var a := ApiParamsFor(p).value;
            Truthy(a.returnDate) <==> p.tripType == "round-trip"
  {
  }

  /** A form whose airports were both chosen from suggestions with sky ids
      and whose date is set passes validation on a one-way trip. */
  lemma ChosenAirportsValidate(p: SearchParams, from: Airport, to: Airport, date: string)
    requires from.skyId != "" && to.skyId != "" && date != ""
    ensures var q := WithField(WithAirport(WithAirport(p, Origin, from), Destination, to), Date, date);
            q.tripType != "round-trip" ==>
              ApiParamsFor(q).Returned? && ApiParamsFor(q).value.originSkyId == from.skyId
              && ApiParamsFor(q).value.destinationSkyId == to.skyId
  {
    var q1 := WithAirport(p, Origin, from);
    var q2 := WithAirport(q1, Destination, to);
    assert Field(q2, OriginSkyId) == Field(q1, OriginSkyId);
    var q := WithField(q2, Date, date);
    assert Field(q, OriginSkyId) == from.skyId && Field(q, DestinationSkyId) == to.skyId;
    assert Field(q, TripType) == Field(p, TripType) by {
      assert Field(q2, TripType) == Field(q1, TripType) == Field(p, TripType);
    }
  }

  /** The untouched form fails validation. */
  lemma InitialFormRejected()
    ensures ApiParamsFor(InitialSearchParams) == Threw("Please select valid airports and date")
  {
  }

  /** The form component's state. */
  class SearchForm {
    var params: SearchParams
    var originSuggestions: seq<Airport>
    var destinationSuggestions: seq<Airport>
    var showOriginDropdown: bool
    var showDestinationDropdown: bool
    var isLoadingOrigins: bool
    var isLoadingDestinations: bool
    var isSearching: bool

    function Suggestions(side: Side): seq<Airport>
      reads this
    {
      if side.Origin? then originSuggestions else destinationSuggestions
    }

    function IsLoading(side: Side): bool
      reads this
    {
      if side.Origin? then isLoadingOrigins else isLoadingDestinations
    }

    function ShowsDropdown(side: Side): bool
      reads this
    {
      if side.Origin? then showOriginDropdown else showDestinationDropdown
    }

    constructor ()
      ensures params == InitialSearchParams
      ensures originSuggestions == [] && destinationSuggestions == []
      ensures !showOriginDropdown && !showDestinationDropdown
      ensures !isLoadingOrigins && !isLoadingDestinations && !isSearching
    {
      params := InitialSearchParams;
      originSuggestions, destinationSuggestions := [], [];
      showOriginDropdown, showDestinationDropdown := false, false;
      isLoadingOrigins, isLoadingDestinations := false, false;
      isSearching := false;
    }

    /** `handleChange`. */
    method HandleChange(f: FormField, value: string)
      modifies this`params
      ensures params == WithField(old(params), f, value)
    {
      params := WithField(params, f, value);
    }

    /** Focus opens a side's list; blur closes it (after a delay). */
    method SetDropdown(side: Side, open: bool)
      modifies this`showOriginDropdown, this`showDestinationDropdown
      ensures ShowsDropdown(side) == open
      ensures ShowsDropdown(if side.Origin? then Destination else Origin)
              == old(ShowsDropdown(if side.Origin? then Destination else Origin))
    {
      if side.Origin? {
        showOriginDropdown := open;
      } else {
        showDestinationDropdown := open;
      }
    }

    /** `handleAirportSelect`: the choice fills the side's fields and closes
        its list. */
    method HandleAirportSelect(side: Side, airport: Airport)
      modifies this`params, this`showOriginDropdown, this`showDestinationDropdown
      ensures params == WithAirport(old(params), side, airport)
      ensures !ShowsDropdown(side)
      ensures ShowsDropdown(if side.Origin? then Destination else Origin)
              == old(ShowsDropdown(if side.Origin? then Destination else Origin))
    {
      params := WithAirport(params, side, airport);
      SetDropdown(side, false);
    }

    /** First phase of `fetchOriginSuggestions` / `fetchDestinationSuggestions`:
        an empty query clears the list and sends nothing; otherwise the side
        starts loading. Returns whether a request goes out. */
    method BeginSuggestionFetch(side: Side, query: string) returns (requested: bool)
      modifies this`originSuggestions, this`destinationSuggestions,
               this`isLoadingOrigins, this`isLoadingDestinations
      ensures requested <==> query != ""
      ensures !requested ==> Suggestions(side) == [] && IsLoading(side) == old(IsLoading(side))
      ensures requested ==> IsLoading(side) && Suggestions(side) == old(Suggestions(side))
      ensures var other := if side.Origin? then Destination else Origin;
              Suggestions(other) == old(Suggestions(other)) && IsLoading(other) == old(IsLoading(other))
    {
      requested := query != "";
      if side.Origin? {
        if requested { isLoadingOrigins := true; } else { originSuggestions := []; }
      } else {
        if requested { isLoadingDestinations := true; } else { destinationSuggestions := []; }
      }
    }

    /** Second phase, once the request settled: the side shows what
        `fetchAirportSuggestions` resolved to and stops loading. */
    method EndSuggestionFetch(side: Side, reply: SuggestReply)
      modifies this`originSuggestions, this`destinationSuggestions,
               this`isLoadingOrigins, this`isLoadingDestinations
      ensures Suggestions(side) == AirportSuggestions(reply) && !IsLoading(side)
      ensures var other := if side.Origin? then Destination else Origin;
              Suggestions(other) == old(Suggestions(other)) && IsLoading(other) == old(IsLoading(other))
    {
      var airports := AirportSuggestions(reply);
      if side.Origin? {
        originSuggestions, isLoadingOrigins := airports, false;
      } else {
        destinationSuggestions, isLoadingDestinations := airports, false;
      }
    }

    /** One suggestion fetch for the text of a side's input, given what the
        provider would answer. */
    method FetchSuggestions(side: Side, query: string, reply: SuggestReply)
      modifies this`originSuggestions, this`destinationSuggestions,
               this`isLoadingOrigins, this`isLoadingDestinations
      ensures Suggestions(side) == (if query == "" then [] else AirportSuggestions(reply))
      ensures query != "" ==> !IsLoading(side)
      ensures query == "" ==> IsLoading(side) == old(IsLoading(side))
      ensures var other := if side.Origin? then Destination else Origin;
              Suggestions(other) == old(Suggestions(other)) && IsLoading(other) == old(IsLoading(other))
    {
      var requested := BeginSuggestionFetch(side, query);
      if requested {
        EndSuggestionFetch(side, reply);
      }
    }

    /** First phase of `handleSubmit`, up to the awaited search. The form
        is marked as searching, then validated. A form that fails validation
        (or whose date cannot be formatted) raises the alert "Search failed: "
        plus the message, is no longer searching, and leaves the session
        alone. A valid form starts the shared search: while the request is
        awaited both the form's `isSearching` and the session's `loading`
        are set and the session's error is cleared. */
    method BeginSubmit(session: Session) returns (alert: Option<string>, apiParams: Outcome<ApiParams>)
      modifies this`isSearching, session`loading, session`error
      ensures apiParams == ApiParamsFor(params)
      ensures apiParams.Threw? ==>
                alert == Some("Search failed: " + apiParams.message) && !isSearching
                && session.loading == old(session.loading) && session.error == old(session.error)
      ensures apiParams.Returned? ==>
                alert == None && isSearching && session.loading && session.error == None
    {
      isSearching := true;
      apiParams := ApiParamsFor(params);
      match apiParams {
        case Threw(message) =>
          alert := Some("Search failed: " + message);
          isSearching := false;
        case Returned(_) =>
          alert := None;
          session.BeginSearch();
      }
    }

    /** Second phase, once the search request for `apiParams` settled with
        `reply`: the session stores the reply or its failure message (the
        search keeps its own failures, so no alert follows), `onSearch` is
        called when given, and the form is no longer searching. */
    method EndSubmit(session: Session, apiParams: ApiParams, reply: FlightsReply, hasOnSearch: bool)
      returns (onSearchCalled: bool, query: Query)
      modifies this`isSearching, session`flightDetails, session`loading, session`error
      ensures !isSearching && onSearchCalled == hasOnSearch
      ensures IsFlightQuery(apiParams, query)
      ensures !session.loading
      ensures FlightSearchOutcome(reply).Returned? ==>
                session.flightDetails == Some(reply.body) && session.error == old(session.error)
      ensures FlightSearchOutcome(reply).Threw? ==>
                session.flightDetails == old(session.flightDetails)
                && session.error == Some(FlightSearchOutcome(reply).message)
    {
      query := FlightQuery(apiParams);
      session.EndSearch(FlightSearchOutcome(reply));
      onSearchCalled := hasOnSearch;
      isSearching := false;
    }

    /** `handleSubmit` against the provider's reply: both phases in turn.
        `isSearching` is false again at the end, and the session ends up as
        the shared search leaves it. */
    method Submit(session: Session, reply: FlightsReply, hasOnSearch: bool)
      returns (alert: Option<string>, onSearchCalled: bool, query: Option<Query>)
      modifies this`isSearching, session`flightDetails, session`loading, session`error
      ensures !isSearching
      ensures ApiParamsFor(params).Threw? ==>
                alert == Some("Search failed: " + ApiParamsFor(params).message)
                && !onSearchCalled && query == None
                && session.flightDetails == old(session.flightDetails)
                && session.loading == old(session.loading) && session.error == old(session.error)
      ensures ApiParamsFor(params).Returned? ==>
                alert == None && onSearchCalled == hasOnSearch && query.Some?
                && IsFlightQuery(ApiParamsFor(params).value, query.value)
                && Names(query.value) == FlightQueryNames
                     + (if params.tripType == "round-trip" then ["returnDate"] else [])
                && !session.loading
                && (session.error.None? <==> FlightSearchOutcome(reply).Returned?)
                && (session.error.None? ==> session.flightDetails == Some(reply.body))
                && (session.error.Some? ==> session.error == Some(FlightSearchOutcome(reply).message)
                                            && session.flightDetails == old(session.flightDetails))
      ensures session.filters == old(session.filters)
    {
      var apiParams;
      alert, apiParams := BeginSubmit(session);
      onSearchCalled, query := false, None;
      if apiParams.Returned? {
        var sent;
        onSearchCalled, sent := EndSubmit(session, apiParams.value, reply, hasOnSearch);
        query := Some(sent);
      }
    }
  }
}
