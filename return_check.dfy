/** The return check: fetch the tracker, pick the drop-off scan, geocode the
    shipping and drop-off addresses, run both heuristics and combine them.
    The network services are parameters. */
module ReturnCheck {
  import opened Wrappers
  import opened Errors
  import opened EasyPost
  import opened Heuristics

  /** Latitude and longitude of a geocoded address. */
  datatype Coords = Coords(lat: real, lng: real)

  /** A distance, which the geodesic computation never makes negative. */
  type Miles = d: real | 0.0 <= d

  /** The body of a return-check request. */
  datatype ReturnRequest = ReturnRequest(
    orderId: string,
    shipping: Address,
    trackingNumber: string,
    carrier: string,
    expectedLbs: real)

  /** The collaborators the handler calls: the tracking lookup by carrier and
      tracking number, the geocoder on a city and zip (None when it does not
      answer OK), the geodesic distance in miles, and the two-decimal
      rounding applied to displayed numbers. */
  datatype Services = Services(
    fetchTracker: (string, string) -> TrackingReply,
    geocode: (string, string) -> Option<Coords>,
    geodesicMiles: (Coords, Coords) -> Miles,
    round2: real -> real)

  /** The verdict returned to the caller. */
  datatype ReturnEvaluation = ReturnEvaluation(
    isFraud: bool,
    distanceMiles: real,
    dropOffCity: string,
    shippingCity: string,
    returnWeightLbs: real,
    expectedWeightLbs: real,
    distanceFlagged: bool,
    weightFlagged: bool)

  /** One call of the geocoder; an unresolved address ends the check. */
  function Geocode(services: Services, city: string, zip: string): (r: Result<Coords, CheckError>)
    ensures r.Ok? <==> services.geocode(city, zip).Some?
    ensures r.Ok? ==> services.geocode(city, zip) == Some(r.value)
    ensures r.Err? ==> r.error == GeocodingFailed
  {
    match services.geocode(city, zip)
    case None => Err(GeocodingFailed)
    case Some(coords) => Ok(coords)
  }

  /** The parcel weight in ounces; its absence ends the check (a weight of
      zero is present). */
  function ParcelOunces(tracker: Tracker): (r: Result<real, CheckError>)
    ensures r.Ok? <==> tracker.weightOunces.Some?
    ensures r.Ok? ==> tracker.weightOunces == Some(r.value)
    ensures r.Err? ==> r.error == WeightNotFound
  {
    match tracker.weightOunces
    case None => Err(WeightNotFound)
    case Some(ounces) => Ok(ounces)
  }

  /** The tracking reply the handler works on. */
  function Reply(req: ReturnRequest, services: Services): TrackingReply {
    services.fetchTracker(req.carrier, req.trackingNumber)
  }

  /** The whole return check. On success the overall verdict is the
      disjunction of the two flags that are reported, the weight flag is
      raised only for a deficit on an item over 1 lb, and the cities and
      expected weight are echoed back. */
  function CheckReturn(req: ReturnRequest, services: Services): (r: Result<ReturnEvaluation, CheckError>)
    ensures r.Ok? ==> r.value.isFraud == (r.value.distanceFlagged || r.value.weightFlagged)
    ensures r.Ok? ==> r.value.weightFlagged ==> req.expectedLbs > 1.0
    ensures r.Ok? ==> (r.value.shippingCity == req.shipping.city
                       && r.value.expectedWeightLbs == req.expectedLbs
                       && r.value.dropOffCity != "")
    ensures r.Ok? ==> Reply(req, services).status == 200
  {
    var reply := Reply(req, services);
    var tracker :- ValidTracker(reply);
    var dropOff :- DropOffLocation(tracker.details.value);
    var shipCoords :- Geocode(services, req.shipping.city, req.shipping.zip);
    var dropCoords :- Geocode(services, dropOff.city, dropOff.zip);
    var distance := services.geodesicMiles(shipCoords, dropCoords);
    var distanceFraud := DistanceFlagged(distance);
    var ounces :- ParcelOunces(tracker);
    var pounds := ReturnedPounds(ounces);
    var weightFraud := WeightFlagged(req.expectedLbs, pounds);
    Ok(ReturnEvaluation(
      distanceFraud || weightFraud,
      services.round2(distance),
      dropOff.city,
      req.shipping.city,
      services.round2(pounds),
      req.expectedLbs,
      distanceFraud,
      weightFraud))
  }

  /** What a successful check reports when every step succeeds: the flags
      are taken on the unrounded distance and weight, and only the displayed
      numbers are rounded. */
  lemma SuccessfulCheck(req: ReturnRequest, services: Services, tracker: Tracker,
                        dropOff: Address, shipCoords: Coords, dropCoords: Coords, ounces: real)
    requires Reply(req, services) == TrackingReply(200, Some(tracker))
    requires HasScans(tracker)
    requires DropOffLocation(tracker.details.value) == Ok(dropOff)
    requires services.geocode(req.shipping.city, req.shipping.zip) == Some(shipCoords)
    requires services.geocode(dropOff.city, dropOff.zip) == Some(dropCoords)
    requires tracker.weightOunces == Some(ounces)
    ensures var distance := services.geodesicMiles(shipCoords, dropCoords);
            var pounds := ounces / 16.0;
            CheckReturn(req, services) == Ok(ReturnEvaluation(
              DistanceFlagged(distance) || WeightFlagged(req.expectedLbs, pounds),
              services.round2(distance),
              dropOff.city,
              req.shipping.city,
              services.round2(pounds),
              req.expectedLbs,
              DistanceFlagged(distance),
              WeightFlagged(req.expectedLbs, pounds)))
  {
  }

  /** One validation step of the check: whether it fails, and the error it
      then reports. */
  datatype Guard = Guard(fails: bool, error: CheckError)

  /** The error of the first failing guard, if any. */
  function FirstFailure(guards: seq<Guard>): (r: Option<CheckError>)
    ensures r.None? <==> forall i | 0 <= i < |guards| :: !guards[i].fails
    ensures r.Some? ==> exists i | 0 <= i < |guards| ::
              guards[i].fails && guards[i].error == r.value
              && forall j | 0 <= j < i :: !guards[j].fails
  {
    if guards == [] then None
    else if guards[0].fails then Some(guards[0].error)
    else
      var rest := FirstFailure(guards[1..]);
      assert forall i | 1 <= i < |guards| :: guards[1..][i - 1] == guards[i];
      rest
  }

  /** The last scan of the reply, when the reply has one. */
  function DropOffScan(reply: TrackingReply): Option<TrackingDetail> {
    if reply.tracker.Some? && HasScans(reply.tracker.value)
    then Some(LastScan(reply.tracker.value.details.value))
    else None
  }

  /** The reply names a complete drop-off location. */
  predicate DropOffComplete(reply: TrackingReply) {
    DropOffScan(reply).Some? && Given(DropOffScan(reply).value.city) && Given(DropOffScan(reply).value.zip)
  }

  /** The drop-off location resolves to coordinates. */
  predicate DropOffResolves(reply: TrackingReply, services: Services) {
    DropOffComplete(reply)
    && services.geocode(DropOffScan(reply).value.city.value, DropOffScan(reply).value.zip.value).Some?
  }

  /** The conditions the handler checks, in the order it checks them, each
      stated on its own. */
  function Guards(req: ReturnRequest, services: Services): seq<Guard> {
    var reply := Reply(req, services);
    [ Guard(reply.status != 200, TrackingFetchFailed),
      Guard(reply.tracker.None? || !HasScans(reply.tracker.value), TrackingNotFound),
      Guard(!DropOffComplete(reply), IncompleteDropOff),
      Guard(services.geocode(req.shipping.city, req.shipping.zip).None?, GeocodingFailed),
      Guard(!DropOffResolves(reply, services), GeocodingFailed),
      Guard(reply.tracker.None? || reply.tracker.value.weightOunces.None?, WeightNotFound) ]
  }

  /** Error precedence: the check fails exactly when some guard fails, and
      then with the error of the first failing guard in the handler's order. */
  lemma {:induction false} ErrorPrecedence(req: ReturnRequest, services: Services)
    ensures CheckReturn(req, services).Err? <==> FirstFailure(Guards(req, services)).Some?
    ensures CheckReturn(req, services).Err?
            ==> CheckReturn(req, services).error == FirstFailure(Guards(req, services)).value
  {
    var gs := Guards(req, services);
    var t1 := gs[1..];
    var t2 := t1[1..];
    var t3 := t2[1..];
    var t4 := t3[1..];
    var t5 := t4[1..];
    assert FirstFailure(gs) == if gs[0].fails then Some(gs[0].error) else FirstFailure(t1);
    assert FirstFailure(t1) == if t1[0].fails then Some(t1[0].error) else FirstFailure(t2);
    assert FirstFailure(t2) == if t2[0].fails then Some(t2[0].error) else FirstFailure(t3);
    assert FirstFailure(t3) == if t3[0].fails then Some(t3[0].error) else FirstFailure(t4);
    assert FirstFailure(t4) == if t4[0].fails then Some(t4[0].error) else FirstFailure(t5);
    assert FirstFailure(t5) == if t5[0].fails then Some(t5[0].error) else FirstFailure(t5[1..]);
    assert t5[1..] == [];
  }

  /** A missing parcel weight is reported only after both addresses have
      been geocoded. */
  lemma WeightCheckedAfterGeocoding(req: ReturnRequest, services: Services)
    requires CheckReturn(req, services) == Err(WeightNotFound)
    ensures services.geocode(req.shipping.city, req.shipping.zip).Some?
    ensures DropOffResolves(Reply(req, services), services)
  {
  }

  /** A failed tracking request is reported whatever else the services say. */
  lemma FetchFailureFirst(req: ReturnRequest, services: Services)
    requires Reply(req, services).status != 200
    ensures CheckReturn(req, services) == Err(TrackingFetchFailed)
  {
  }

  /** A worked case: a 5 lb item returned as a 48 oz parcel, with a distance
      of 18.9 miles between the two addresses, is flagged on both counts. The
      distance service here answers 18.9 miles for any pair of points, so the
      coordinates the geocoder gives do not determine it. */
  lemma BothHeuristicsFlag()
    ensures var services := Services(
              (carrier: string, number: string) =>
                TrackingReply(200, Some(Tracker(Some([TrackingDetail(Some("Round Rock"), Some("78664"))]),
                                                Some(48.0)))),
              (city: string, zip: string) =>
                if city == "Austin" then Some(Coords(30.27, -97.74)) else Some(Coords(30.50, -97.90)),
              (a: Coords, b: Coords) => 18.9,
              (x: real) => x);
            var req := ReturnRequest("order-1", Address("Austin", "78701"), "EZ1", "USPS", 5.0);
            CheckReturn(req, services)
              == Ok(ReturnEvaluation(true, 18.9, "Round Rock", "Austin", 3.0, 5.0, true, true))
  {
  }
}
