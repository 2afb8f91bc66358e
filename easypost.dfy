/** The tracking reply the handler receives from the carrier-tracking service,
    its validation, and the choice of the drop-off location. */
module EasyPost {
  import opened Wrappers
  import opened Errors

  /** One scan event; the reply may leave out its city or its zip. */
  datatype TrackingDetail = TrackingDetail(city: Option<string>, zip: Option<string>)

  /** The tracker object: its scan history, oldest first (the key may be
      missing), and the parcel weight in ounces (possibly absent). */
  datatype Tracker = Tracker(details: Option<seq<TrackingDetail>>, weightOunces: Option<real>)

  /** The HTTP status of the tracking request and the tracker in its body. */
  datatype TrackingReply = TrackingReply(status: int, tracker: Option<Tracker>)

  /** A city and zip pair: the shipping address of a request, or the
      drop-off location read from a scan. */
  datatype Address = Address(city: string, zip: string)

  /** A reply field counts as given when it is present and not the empty
      string (the truthiness test the handler applies). */
  predicate Given(field: Option<string>) {
    field.Some? && field.value != ""
  }

  /** The tracker carries at least one scan detail. */
  predicate HasScans(t: Tracker) {
    t.details.Some? && |t.details.value| > 0
  }

  /** Accepts the reply only when the request succeeded and its tracker has a
      non-empty scan history; a failed request is reported before anything
      about the tracker. */
  function ValidTracker(reply: TrackingReply): (r: Result<Tracker, CheckError>)
    ensures r.Ok? <==> reply.status == 200 && reply.tracker.Some? && HasScans(reply.tracker.value)
    ensures r.Ok? ==> r.value == reply.tracker.value && HasScans(r.value)
    ensures reply.status != 200 ==> r == Err(TrackingFetchFailed)
    ensures reply.status == 200 && r.Err? ==> r.error == TrackingNotFound
  {
    if reply.status != 200 then Err(TrackingFetchFailed)
    else if reply.tracker.None? || !HasScans(reply.tracker.value) then Err(TrackingNotFound)
    else Ok(reply.tracker.value)
  }

  /** The most recent scan of a non-empty history. */
  function LastScan(details: seq<TrackingDetail>): TrackingDetail
    requires |details| > 0
  {
    details[|details| - 1]
  }

  /** The drop-off location is the last scan's city and zip; it is rejected
      when either of them is missing or empty. */
  function DropOffLocation(details: seq<TrackingDetail>): (r: Result<Address, CheckError>)
    requires |details| > 0
    ensures r.Ok? <==> Given(details[|details| - 1].city) && Given(details[|details| - 1].zip)
    ensures r.Ok? ==> (Some(r.value.city) == details[|details| - 1].city
                       && Some(r.value.zip) == details[|details| - 1].zip
                       && r.value.city != "" && r.value.zip != "")
    ensures r.Err? ==> r.error == IncompleteDropOff
  {
    var last := LastScan(details);
    if !Given(last.city) || !Given(last.zip) then Err(IncompleteDropOff)
    else Ok(Address(last.city.value, last.zip.value))
  }

  /** Only the last scan decides the drop-off: any earlier history may be
      prepended without changing the outcome. */
  lemma DropOffIgnoresEarlierScans(earlier: seq<TrackingDetail>, last: TrackingDetail)
    ensures DropOffLocation(earlier + [last]) == DropOffLocation([last])
  {
  }

  /** The drop-off is never taken from the first scan of a longer history:
      a complete first scan followed by an incomplete last one is rejected. */
  lemma DropOffIsNotFirstScan(first: TrackingDetail, last: TrackingDetail)
    requires Given(first.city) && Given(first.zip)
    requires !Given(last.zip)
    ensures DropOffLocation([first]).Ok?
    ensures DropOffLocation([first, last]) == Err(IncompleteDropOff)
  {
  }
}
