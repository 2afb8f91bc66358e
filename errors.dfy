/** The distinguishable failures of the return check. Each kind stands for one
    of the HTTP exceptions the handler raises; the status codes and message
    texts are not modelled. */
module Errors {

  datatype CheckError =
    | TrackingFetchFailed   // the tracking service did not answer with status 200
    | TrackingNotFound      // no tracker, or a tracker without scan details
    | IncompleteDropOff     // the drop-off scan lacks a city or a zip
    | GeocodingFailed       // an address could not be resolved to coordinates
    | WeightNotFound        // the tracker reports no parcel weight
}
