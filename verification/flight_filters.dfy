/** The filter panel of src/components/FlightFilters.jsx: the airline
    choices and price ceiling derived from the flights, the panel's local
    copy of the filters, its change handler, and applying the copy to the
    shared session. */
module FlightFilters {
  import opened Js
  import opened Seqs
  import opened FlightsContext
  import opened SearchResults

  /** `flights.map(flight => flight.airline)`. */
  function AirlinesOf(flights: seq<Flight>): (names: seq<string>)
    ensures |names| == |flights|
    ensures forall i :: 0 <= i < |flights| ==> names[i] == flights[i].airline
  {
    seq(|flights|, i requires 0 <= i < |flights| => flights[i].airline)
  }

  /** `[...new Set(airlines)]`: the airline checkboxes. */
  function UniqueAirlines(flights: seq<Flight>): (names: seq<string>)
    ensures NoDuplicates(names)
    ensures forall a :: a in names <==> exists i :: 0 <= i < |flights| && flights[i].airline == a
  {
    var all := AirlinesOf(flights);
    assert forall a :: a in all <==> exists i :: 0 <= i < |flights| && flights[i].airline == a by {
      forall a | a in all
        ensures exists i :: 0 <= i < |flights| && flights[i].airline == a
      {
        var i :| 0 <= i < |all| && all[i] == a;
        assert flights[i].airline == a;
      }
    }
    Distinct(all)
  }

  /** The checkboxes come in the order in which the airlines first occur. */
  lemma UniqueAirlinesInFirstOccurrenceOrder(flights: seq<Flight>)
    ensures var names, all := UniqueAirlines(flights), AirlinesOf(flights);
            forall i, j :: 0 <= i < j < |names| ==> FirstIndex(all, names[i]) < FirstIndex(all, names[j])
  {
    DistinctFirstOccurrenceOrder(AirlinesOf(flights));
  }

  /** `Math.max(...flights.map(flight => flight.price))`; None stands for
      the -Infinity of an empty list. */
  function MaxPrice(flights: seq<Flight>): (m: Option<real>)
    ensures m.None? <==> |flights| == 0
    ensures m.Some? ==> forall i :: 0 <= i < |flights| ==> flights[i].price <= m.value
    ensures m.Some? ==> exists i :: 0 <= i < |flights| && flights[i].price == m.value
  {
    if |flights| == 0 then None
    else
      var rest := MaxPrice(flights[1..]);
      if rest.None? || flights[0].price >= rest.value then
        Some(flights[0].price)
      else
        var i :| 0 <= i < |flights[1..]| && flights[1..][i].price == rest.value;
        assert flights[i + 1].price == rest.value;
        rest
  }

  /** What one input of the panel reports: an airline checkbox with its
      new state, a stops radio with its value text, or the price slider. */
  datatype FilterEvent =
    | AirlineToggled(airline: string, checked: bool)
    | StopsPicked(value: string)
    | PriceSlid(price: real)  // the slider's text, spelling `price`

  /** `handleFilterChange`: the named field takes its new value, every other
      field is kept. */
  function ChangeFilters(prev: Filters, e: FilterEvent): (next: Filters)
    ensures next.sortBy == prev.sortBy
    ensures !e.AirlineToggled? ==> next.airlines == prev.airlines
    ensures !e.StopsPicked? ==> next.stops == prev.stops
    ensures !e.PriceSlid? ==> next.maxPrice == prev.maxPrice
    ensures e.PriceSlid? ==> next.maxPrice == TextLimit(e.price) && PriceLimited(next)
  {
    match e
    case AirlineToggled(airline, checked) =>
      prev.(airlines := if checked then prev.airlines + [airline]
                        else Filter(prev.airlines, (item: string) => item != airline))
    case StopsPicked(value) =>
      prev.(stops := if value == "null" then None else Some(ParseInt(value)))
    case PriceSlid(price) =>
      prev.(maxPrice := TextLimit(price))
  }

  /** Checking an airline adds it at the end of the selection. */
  lemma CheckAppendsAirline(prev: Filters, airline: string)
    ensures var next := ChangeFilters(prev, AirlineToggled(airline, true));
            next.airlines[..|prev.airlines|] == prev.airlines
            && |next.airlines| == |prev.airlines| + 1 && next.airlines[|prev.airlines|] == airline
            && multiset(next.airlines) == multiset(prev.airlines) + multiset{airline}
  {
  }

  /** Unchecking an airline removes every occurrence of it and keeps the
      other selected airlines, in order and with their multiplicities. */
  lemma UncheckRemovesAirline(prev: Filters, airline: string)
    ensures var next := ChangeFilters(prev, AirlineToggled(airline, false));
            airline !in next.airlines
            && IsSubsequence(next.airlines, prev.airlines)
            && forall a :: a != airline ==> multiset(next.airlines)[a] == multiset(prev.airlines)[a]
  {
    var keep := (item: string) => item != airline;
    FilterCounts(prev.airlines, keep);
    FilterIsSubsequence(prev.airlines, keep);
  }

  /** Unchecking undoes checking an airline that was not selected. */
  lemma UncheckUndoesCheck(prev: Filters, airline: string)
    requires airline !in prev.airlines
    ensures ChangeFilters(ChangeFilters(prev, AirlineToggled(airline, true)), AirlineToggled(airline, false)) == prev
  {
    var keep := (item: string) => item != airline;
    FilterConcat(prev.airlines, [airline], keep);
    FilterAllPass(prev.airlines, keep);
    assert Filter([airline], keep) == [];
  }

  /** The slider's text is truthy even at "0", so the panel then keeps only
      flights that cost nothing; at any amount it keeps exactly the flights
      priced at or below it. */
  lemma SliderLimitsPrice(prev: Filters, amount: real, f: Flight)
    ensures var next := ChangeFilters(prev, PriceSlid(amount));
            PriceLimited(next) && (WithinMaxPrice(next, f) <==> f.price <= amount)
    ensures WithinMaxPrice(ChangeFilters(prev, PriceSlid(0.0)), f) <==> f.price <= 0.0
  {
  }

  /** The "Any stops" radio clears the stop filter; a radio holding the
      decimal text of a count selects exactly that count. */
  lemma StopsRadioSelects(prev: Filters, count: int)
    ensures ChangeFilters(prev, StopsPicked("null")).stops == None
    ensures var next := ChangeFilters(prev, StopsPicked(IntToString(count)));
            next.stops == Some(Int(count))
            && forall f: Flight :: StopsMatch(next, f) <==> f.stops == count
  {
    ParseIntOfIntToString(count);
    assert IntToString(count) != "null" by {
      assert IsDigit(IntToString(count)[|IntToString(count)| - 1]);
    }
  }

  /** A radio text with no leading digits parses to NaN, which no stop
      count equals: every flight is then filtered out. */
  lemma NonNumericStopsMatchNothing(prev: Filters, value: string, f: Flight)
    requires value != "null" && ParseInt(value) == NaN
    ensures !StopsMatch(ChangeFilters(prev, StopsPicked(value)), f)
  {
  }

  /** The panel's state: its own copy of the filters, edited until applied. */
  class FilterPanel {
    var localFilters: Filters

    /** `useState(filters)`. */
    constructor (filters: Filters)
      ensures localFilters == filters
    {
      localFilters := filters;
    }

    /** The effect that resets the local copy whenever the shared filters
        change. */
    method SyncWithContext(filters: Filters)
      modifies this
      ensures localFilters == filters
    {
      localFilters := filters;
    }

    /** `handleFilterChange`. */
    method HandleFilterChange(e: FilterEvent)
      modifies this
      ensures localFilters == ChangeFilters(old(localFilters), e)
    {
      localFilters := ChangeFilters(localFilters, e);
    }

    /** `handleApplyFilters`: the local copy replaces the shared filters,
        and the effect then copies them back unchanged. */
    method ApplyFilters(session: Session)
      modifies this, session`filters
      ensures session.filters == old(localFilters)
      ensures localFilters == old(localFilters)
    {
      session.ApplyFilters(localFilters);
      SyncWithContext(session.filters);
    }
  }

  /** The sort selector of the results view: `applyFilters({...filters,
      sortBy: value})`. Only the sort key of the shared filters changes, and
      since they changed, the panel's effect resets its local copy to them,
      discarding any filter edits not yet applied. */
  method SelectSort(session: Session, panel: FilterPanel, value: string)
    modifies session`filters, panel
    ensures session.filters == old(session.filters).(sortBy := value)
    ensures panel.localFilters == session.filters
  {
    session.ApplyFilters(session.filters.(sortBy := value));
    panel.SyncWithContext(session.filters);
  }
}
