/** The flight tools: the status lookup `get_flight_position` and the offer
    search `search_flights` with its offer formatter. */
module Flight {
  import opened Calls
  import opened Text

  // ---------------------------------------------------------------------------
  // get_flight_position
  // ---------------------------------------------------------------------------

  /** One entry of the flight-status payload; `text` is Python's `str()` of it. */
  datatype FlightRecord = FlightRecord(text: string)

  /** The decoded status payload; its `flights` key may be absent. */
  datatype FlightStatus = FlightStatus(flights: Option<seq<FlightRecord>>)

  function HttpFailureText(status: nat): string
  {
    "Unable to retrieve flight information. (HTTP " + Decimal(status) + ")"
  }

  function NoRecentFlightsText(flightNumber: string): string
  {
    "No recent flights found for " + flightNumber + "."
  }

  function PositionErrorText(e: Error): string
  {
    "Error retrieving flight position: " + e.message
  }

  /** The reply of `get_flight_position`, given the outcome of the GET on the
      flight's status URL. */
  function GetFlightPosition(flightNumber: string, response: Fetch<HttpResponse<FlightStatus>>): (r: string)
    // a failed request or body decoding is reported with the exception's text
    ensures response.Raised? ==> r == PositionErrorText(response.error)
    ensures response.Fetched? && response.value.status == 200 && response.value.body.Raised? ==>
              r == PositionErrorText(response.value.body.error)
    // any status but 200 is reported with that status, whatever the body holds
    ensures response.Fetched? && response.value.status != 200 ==> r == HttpFailureText(response.value.status)
    // an absent or empty list of flights
    ensures response.Fetched? && response.value.status == 200 && response.value.body.Fetched? &&
            response.value.body.value.flights in {None, Some([])} ==>
              r == NoRecentFlightsText(flightNumber)
    // otherwise the first flight, and only the first
    ensures response.Fetched? && response.value.status == 200 && response.value.body.Fetched? &&
            response.value.body.value.flights.Some? && |response.value.body.value.flights.value| > 0 ==>
              r == response.value.body.value.flights.value[0].text
  {
    match response
    case Raised(e) => PositionErrorText(e)
    case Fetched(resp) =>
      if resp.status != 200 then HttpFailureText(resp.status)
      else
        match resp.body
        case Raised(e) => PositionErrorText(e)
        case Fetched(data) =>
          var flights := match data.flights case Some(fs) => fs case None => [];
          if |flights| == 0 then NoRecentFlightsText(flightNumber) else flights[0].text
  }

  /** A non-200 status is reported before the body is read: the body cannot change the reply. */
  lemma StatusFailureIgnoresBody(flightNumber: string, status: nat, body1: Fetch<FlightStatus>, body2: Fetch<FlightStatus>)
    requires status != 200
    ensures GetFlightPosition(flightNumber, Fetched(HttpResponse(status, body1)))
         == GetFlightPosition(flightNumber, Fetched(HttpResponse(status, body2)))
  {
  }

  /** Flights after the first one never reach the reply. */
  lemma OnlyFirstFlightShown(flightNumber: string, first: FlightRecord, rest1: seq<FlightRecord>, rest2: seq<FlightRecord>)
    ensures GetFlightPosition(flightNumber, Fetched(HttpResponse(200, Fetched(FlightStatus(Some([first] + rest1))))))
         == GetFlightPosition(flightNumber, Fetched(HttpResponse(200, Fetched(FlightStatus(Some([first] + rest2))))))
         == first.text
  {
  }

  /** The HTTP failure message carries the status code, which can be read back from it. */
  lemma {:induction false} HttpFailureStatusReadable(status: nat)
    ensures var t := HttpFailureText(status);
            var prefix := "Unable to retrieve flight information. (HTTP ";
            |t| == |prefix| + |Decimal(status)| + 1 &&
            t[..|prefix|] == prefix && t[|t| - 1] == ')' &&
            DecimalValue(t[|prefix|..|t| - 1]) == status
  {
    var prefix := "Unable to retrieve flight information. (HTTP ";
    var t := HttpFailureText(status);
    assert t == prefix + Decimal(status) + ")";
    assert t[|prefix|..|t| - 1] == Decimal(status);
    DecimalRoundTrip(status);
  }

  // ---------------------------------------------------------------------------
  // search_flights: offers and their formatting
  // ---------------------------------------------------------------------------

  /** A flight segment; the keys read from it are required by the offer schema. */
  datatype Segment = Segment(carrierCode: string, number: string, departureAt: string, arrivalAt: string)

  /** An itinerary; an absent `segments` key reads as an empty list. */
  datatype Itinerary = Itinerary(segments: seq<Segment>)

  /** The price of an offer; its `total` key may be absent. */
  datatype Price = Price(total: Option<string>)

  /** A flight offer; an absent `itineraries` key reads as an empty list, and
      the `price` key may be absent. */
  datatype Offer = Offer(itineraries: seq<Itinerary>, price: Option<Price>)

  /** A location-lookup entry. */
  datatype Location = Location(iataCode: string)

  /** An offer the formatter keeps: it has an itinerary, and its first itinerary has a segment. */
  predicate Bookable(o: Offer)
  {
    |o.itineraries| > 0 && |o.itineraries[0].segments| > 0
  }

  /** `offer.get("price", {}).get("total", "N/A")`. */
  function PriceText(o: Offer): (t: string)
    ensures o.price == None || o.price.value.total == None ==> t == "N/A"
    ensures o.price.Some? && o.price.value.total.Some? ==> t == o.price.value.total.value
  {
    match o.price
    case None => "N/A"
    case Some(p) => GetOr(p.total, "N/A")
  }

  function FirstSegment(o: Offer): Segment
    requires Bookable(o)
  {
    o.itineraries[0].segments[0]
  }

  function LastSegment(o: Offer): Segment
    requires Bookable(o)
  {
    var segments := o.itineraries[0].segments;
    segments[|segments| - 1]
  }

  /** The line shown for one bookable offer: it opens with the flight number
      and departure of the first segment and closes with the price in euros. */
  function OfferLine(o: Offer): (line: string)
    requires Bookable(o)
    ensures var head := "Flight " + FirstSegment(o).carrierCode + FirstSegment(o).number
                        + ": departs " + FirstSegment(o).departureAt;
            |head| <= |line| && line[..|head|] == head
    ensures var tail := ", arrives " + LastSegment(o).arrivalAt + ", price " + PriceText(o) + " EUR";
            |tail| <= |line| && line[|line| - |tail|..] == tail
  {
    "Flight " + FirstSegment(o).carrierCode + FirstSegment(o).number
      + ": departs " + FirstSegment(o).departureAt
      + ", arrives " + LastSegment(o).arrivalAt
      + ", price " + PriceText(o) + " EUR"
  }

  /** The formatter's output: one line per bookable offer, in input order. */
  function FormatOffers(offers: seq<Offer>): (lines: seq<string>)
    ensures |lines| <= |offers|
  {
    if |offers| == 0 then []
    else (if Bookable(offers[0]) then [OfferLine(offers[0])] else []) + FormatOffers(offers[1..])
  }

  /** Formatting distributes over concatenation: offers keep their relative order,
      and each offer's line depends on that offer alone. */
  lemma {:induction false} FormatOffersAppend(a: seq<Offer>, b: seq<Offer>)
    ensures FormatOffers(a + b) == FormatOffers(a) + FormatOffers(b)
  {
    if |a| == 0 {
      assert a + b == b;
    } else {
      assert (a + b)[0] == a[0];
      assert (a + b)[1..] == a[1..] + b;
      FormatOffersAppend(a[1..], b);
    }
  }

  /** No line is produced exactly when no offer is bookable. */
  lemma {:induction false} FormatOffersEmpty(offers: seq<Offer>)
    ensures FormatOffers(offers) == [] <==> forall k :: 0 <= k < |offers| ==> !Bookable(offers[k])
  {
    if |offers| > 0 {
      FormatOffersEmpty(offers[1..]);
      if !Bookable(offers[0]) {
        forall k | 0 < k < |offers| ensures !Bookable(offers[k]) <== !Bookable(offers[1..][k - 1]) { }
      }
    }
  }

  /** When every offer is bookable, every offer gets its own line, at its own position. */
  lemma {:induction false} FormatOffersAllBookable(offers: seq<Offer>)
    requires forall k :: 0 <= k < |offers| ==> Bookable(offers[k])
    ensures |FormatOffers(offers)| == |offers|
    ensures forall k :: 0 <= k < |offers| ==> FormatOffers(offers)[k] == OfferLine(offers[k])
  {
    if |offers| > 0 {
      FormatOffersAllBookable(offers[1..]);
    }
  }

  /** A line reads its carrier, number and departure from the first segment and
      its arrival from the last one: intermediate segments and later
      itineraries never show. */
  lemma OfferLineUsesEnds(o1: Offer, o2: Offer)
    requires Bookable(o1) && Bookable(o2)
    requires FirstSegment(o1) == FirstSegment(o2)
    requires LastSegment(o1).arrivalAt == LastSegment(o2).arrivalAt
    requires o1.price == o2.price
    ensures OfferLine(o1) == OfferLine(o2)
  {
  }

  /** The fields of an offer that its line shows contain no line break. */
  predicate SingleLine(o: Offer)
    requires Bookable(o)
  {
    && '\n' !in FirstSegment(o).carrierCode
    && '\n' !in FirstSegment(o).number
    && '\n' !in FirstSegment(o).departureAt
    && '\n' !in LastSegment(o).arrivalAt
    && '\n' !in PriceText(o)
  }

  /** The line of an offer whose shown fields hold no line break holds none either. */
  lemma OfferLineSingle(o: Offer)
    requires Bookable(o) && SingleLine(o)
    ensures '\n' !in OfferLine(o)
  {
  }

  lemma {:induction false} FormatOffersSingleLines(offers: seq<Offer>)
    requires forall k :: 0 <= k < |offers| ==> Bookable(offers[k]) ==> SingleLine(offers[k])
    ensures forall k :: 0 <= k < |FormatOffers(offers)| ==> '\n' !in FormatOffers(offers)[k]
  {
    if |offers| > 0 {
      FormatOffersSingleLines(offers[1..]);
      if Bookable(offers[0]) {
        OfferLineSingle(offers[0]);
      }
    }
  }

  /** The formatter of `search_flights`: skips offers without an itinerary or
      without a segment in their first itinerary, and formats the others. */
  method FormatOfferLines(offers: seq<Offer>) returns (formatted: seq<string>)
    ensures formatted == FormatOffers(offers)
  {
    formatted := [];
    for i := 0 to |offers|
      invariant formatted == FormatOffers(offers[..i])
    {
      var offer := offers[i];
      assert offers[..i + 1] == offers[..i] + [offer];
      FormatOffersAppend(offers[..i], [offer]);
      var itineraries := offer.itineraries;
      if |itineraries| == 0 {
        continue;
      }
      var segments := itineraries[0].segments;
      if |segments| == 0 {
        continue;
      }
      var firstSeg := segments[0];
      var lastSeg := segments[|segments| - 1];
      var price := PriceText(offer);
      formatted := formatted + ["Flight " + firstSeg.carrierCode + firstSeg.number
        + ": departs " + firstSeg.departureAt + ", arrives " + lastSeg.arrivalAt
        + ", price " + price + " EUR"];
    }
    assert offers[..|offers|] == offers;
  }

  // ---------------------------------------------------------------------------
  // search_flights: the tool
  // ---------------------------------------------------------------------------

  /** An external call `search_flights` makes, in the order it makes them. */
  datatype ServiceCall =
    | LocationLookup(keyword: string)
    | OfferSearch(originCode: string, destinationCode: string, departureDate: string, adults: int)
    | GenerateReply(userInput: string, instructions: string)

  const SummaryInstructions := "Summarize the best flight options by price and timing clearly."
  const NoDetailedOffersText := "No detailed flight offers found."

  /** How `search_flights` reports an exception: the client's own errors and all others apart. */
  function SearchErrorText(e: Error): string
  {
    match e
    case ResponseError(m) => "Amadeus API error: " + m
    case OtherError(m) => "Unexpected error: " + m
  }

  function NoAirportsText(origin: string, destination: string): string
  {
    "Could not find airports for " + origin + " or " + destination + "."
  }

  function NoOffersText(origin: string, destination: string, departureDate: string): string
  {
    "No flight offers found from " + origin + " to " + destination + " on " + departureDate + "."
  }

  /** The user input of the proactive reply: the count of lines, then the lines. */
  function FoundOptionsText(lines: seq<string>): string
  {
    "Found " + Decimal(|lines|) + " flight options:\n" + Join(lines, "\n")
  }

  /** Both location lookups returned, each with at least one entry. */
  predicate AirportsFound(originLookup: Fetch<seq<Location>>, destinationLookup: Fetch<seq<Location>>)
  {
    originLookup.Fetched? && destinationLookup.Fetched? &&
    |originLookup.value| > 0 && |destinationLookup.value| > 0
  }

  /** The count announced in the proactive reply is the number of lines of the
      result it announces, when no shown field contains a line break. */
  lemma ProactiveCountMatchesLines(offers: seq<Offer>)
    requires FormatOffers(offers) != []
    requires forall k :: 0 <= k < |offers| ==> Bookable(offers[k]) ==> SingleLine(offers[k])
    ensures var lines := FormatOffers(offers);
            Split(Join(lines, "\n"), '\n') == lines &&
            FoundOptionsText(lines) == "Found " + Decimal(|Split(Join(lines, "\n"), '\n')|)
                                        + " flight options:\n" + Join(lines, "\n")
  {
    FormatOffersSingleLines(offers);
    SplitJoin(FormatOffers(offers), '\n');
  }

  /** A handle on the agent session the assistant can speak through. */
  datatype SessionHandle = SessionHandle(id: nat)

  class Assistant {
    /** `_session`: when set, `search_flights` also asks the session for a spoken summary. */
    var session: Option<SessionHandle>

    constructor()
      ensures session == None
    {
      session := None;
    }

    /** `search_flights`, given the outcomes of the calls it makes: the client
        construction, the two location lookups, the offer search and the
        proactive reply request. Returns the reply and the calls actually made. */
    method SearchFlights(origin: string, destination: string, departureDate: string,
                         clientFailure: Option<Error>,
                         originLookup: Fetch<seq<Location>>, destinationLookup: Fetch<seq<Location>>,
                         offerSearch: Fetch<seq<Offer>>, replyFailure: Option<Error>, adults: int := 1)
      returns (reply: string, calls: seq<ServiceCall>)
      // a client that cannot be built ends the search before any call
      ensures clientFailure.Some? <==> calls == []
      ensures clientFailure.Some? ==> reply == SearchErrorText(clientFailure.value)
      // otherwise the origin is looked up first; an exception there ends the search
      ensures clientFailure.None? ==> |calls| >= 1 && calls[0] == LocationLookup(origin)
      ensures clientFailure.None? && originLookup.Raised? ==>
                reply == SearchErrorText(originLookup.error) && |calls| == 1
      // both locations are looked up before either result is checked
      ensures clientFailure.None? && originLookup.Fetched? ==>
                |calls| >= 2 && calls[1] == LocationLookup(destination)
      ensures clientFailure.None? && originLookup.Fetched? && destinationLookup.Raised? ==>
                reply == SearchErrorText(destinationLookup.error) && |calls| == 2
      ensures clientFailure.None? && originLookup.Fetched? && destinationLookup.Fetched? &&
              !AirportsFound(originLookup, destinationLookup) ==>
                reply == NoAirportsText(origin, destination) && |calls| == 2
      // offers are searched exactly when both lookups found a location, between their first codes
      ensures |calls| >= 3 <==> clientFailure.None? && AirportsFound(originLookup, destinationLookup)
      ensures clientFailure.None? && AirportsFound(originLookup, destinationLookup) ==>
                calls[2] == OfferSearch(originLookup.value[0].iataCode, destinationLookup.value[0].iataCode,
                                        departureDate, adults)
      ensures clientFailure.None? && AirportsFound(originLookup, destinationLookup) && offerSearch.Raised? ==>
                reply == SearchErrorText(offerSearch.error) && |calls| == 3
      ensures clientFailure.None? && AirportsFound(originLookup, destinationLookup) && offerSearch == Fetched([]) ==>
                reply == NoOffersText(origin, destination, departureDate) && |calls| == 3
      ensures clientFailure.None? && AirportsFound(originLookup, destinationLookup) &&
              offerSearch.Fetched? && offerSearch.value != [] && FormatOffers(offerSearch.value) == [] ==>
                reply == NoDetailedOffersText && |calls| == 3
      // with at least one line: a proactive summary is requested exactly when a
      // session is set, and the reply is the lines joined by line breaks unless
      // that request raised, which gives its exception's message
      ensures clientFailure.None? && AirportsFound(originLookup, destinationLookup) && offerSearch.Fetched? &&
              FormatOffers(offerSearch.value) != [] ==>
                var lines := FormatOffers(offerSearch.value);
                && (|calls| == 4 <==> session.Some?)
                && (session.Some? ==> calls[3] == GenerateReply(FoundOptionsText(lines), SummaryInstructions))
                && reply == (if session.Some? && replyFailure.Some? then SearchErrorText(replyFailure.value)
                             else Join(lines, "\n"))
      ensures |calls| <= 4
    {
      if clientFailure.Some? {
        reply, calls := SearchErrorText(clientFailure.value), [];
        return;
      }
      calls := [LocationLookup(origin)];
      if originLookup.Raised? {
        reply := SearchErrorText(originLookup.error);
        return;
      }
      calls := calls + [LocationLookup(destination)];
      if destinationLookup.Raised? {
        reply := SearchErrorText(destinationLookup.error);
        return;
      }
      var origins, destinations := originLookup.value, destinationLookup.value;
      if |origins| == 0 || |destinations| == 0 {
        reply := NoAirportsText(origin, destination);
        return;
      }
      calls := calls + [OfferSearch(origins[0].iataCode, destinations[0].iataCode, departureDate, adults)];
      if offerSearch.Raised? {
        reply := SearchErrorText(offerSearch.error);
        return;
      }
      var offers := offerSearch.value;
      if |offers| == 0 {
        reply := NoOffersText(origin, destination, departureDate);
        return;
      }
      var formatted := FormatOfferLines(offers);
      if |formatted| == 0 {
        reply := NoDetailedOffersText;
        return;
      }
      var result := Join(formatted, "\n");
      if session.Some? {
        calls := calls + [GenerateReply("Found " + Decimal(|formatted|) + " flight options:\n" + result,
                                        SummaryInstructions)];
        if replyFailure.Some? {
          reply := SearchErrorText(replyFailure.value);
          return;
        }
      }
      reply := result;
    }
  }
}
