# Return fraud check — a Dafny model

This project models the `/check-return` handler of a return-fraud API. The
handler takes a return request, which holds the shipping address, the carrier,
the tracking number and the expected item weight in pounds. It then:

- fetches the carrier's tracker;
- takes the last scan of the tracking history as the drop-off location;
- geocodes the shipping address and the drop-off address;
- flags the return when the two are more than 15 miles apart;
- flags it when the parcel weight (reported in ounces) falls short of the
  expected weight by more than that weight's tier allows.

The overall verdict is the OR of the two flags. Every failed step ends the
request with a distinguishable error.

Everything in the handler is straight-line code with early exits, so the model
is made of pure functions that return a `Result`. The network collaborators
are the function fields of a `Services` value:

- the tracking lookup;
- the geocoder;
- the geodesic distance, in miles and never negative;
- the two-decimal display rounding.

Modules:

- `Wrappers`: `Option`, and a `Result` usable with `:-`.
- `Errors`: the five error kinds the handler can raise.
- `EasyPost`: the tracking reply, its validation, and the drop-off selection.
- `Heuristics`: the ounce-to-pound conversion, the weight tier table, the
  distance flag, and an independent "accepted minimum" reading of the tiers.
- `ReturnCheck`: the whole check. It also has a reference list of guards, in
  the handler's order, against which the error precedence is proved.

The handler always takes the last scan as the drop-off (main.py:38). It never
checks that the expected weight is positive (main.py:22, 70-78), so the model
does not require it either.

## Model

| member | source | states |
|---|---|---|
| `EasyPost.ValidTracker` | main.py:30-35 | a reply is accepted exactly when its status is 200 and its tracker has a non-empty scan list; a non-200 status is reported before anything about the tracker, and a missing tracker or empty or missing list is "not found" |
| `EasyPost.DropOffLocation` | main.py:37-43 | the drop-off is accepted exactly when the last scan's city and zip are both present and non-empty, and it is then that city and zip; otherwise the error is "incomplete drop-off" |
| `EasyPost.DropOffIgnoresEarlierScans` | main.py:38 | prepending any earlier scans to the history does not change the drop-off outcome |
| `EasyPost.DropOffIsNotFirstScan` | main.py:37-43 | a complete first scan followed by a last scan without a zip is rejected, although the first scan alone would be accepted |
| `Heuristics.ReturnedPounds` | main.py:67 | the returned weight in pounds times 16 is exactly the tracker's ounce weight |
| `Heuristics.WeightFlagged` | main.py:68-78 | the weight flag is only raised for an item over 1 lb whose returned weight is below the expected weight |
| `Heuristics.AcceptedMinimum` | main.py:70-78 | each item over 1 lb has a lightest unflagged returned weight, which lies below the expected weight; items of at most 1 lb have none |
| `Heuristics.WeightFlaggedIffBelowMinimum` | main.py:68-78 | the tier table flags a return exactly when its tier exists and the returned weight is below the tier's accepted minimum |
| `Heuristics.LightTier` | main.py:70-72 | for an expected weight in (1, 3] lb, flagged iff the returned weight is under 1 lb |
| `Heuristics.MediumTier` | main.py:73-75 | for an expected weight in (3, 8] lb, flagged iff expected minus returned exceeds 1 lb |
| `Heuristics.HeavyTier` | main.py:76-78 | for an expected weight over 8 lb, flagged iff expected minus returned exceeds 2 lb |
| `Heuristics.LightItemsNeverFlagged` | main.py:68-78 | an expected weight of at most 1 lb is never flagged, whatever is returned |
| `Heuristics.NoDeficitNeverFlagged` | main.py:70-78 | a returned weight at or above the expected weight is never flagged in any tier |
| `Heuristics.WeightFlagAntitone` | main.py:70-78 | for a fixed item, if a heavier return is flagged then a lighter one is too |
| `Heuristics.ToleranceWidensAboveEightPounds` | main.py:73-78 | the flag is not monotone in the expected weight: a 6.5 lb return is flagged for an 8 lb item and not for an 8.5 lb item |
| `Heuristics.WeightFlaggedInOunces` | main.py:63-78 | in ounces, a return is flagged iff the tier exists and the ounce weight is below 16 times the tier's accepted minimum |
| `Heuristics.DistanceLimitIsStrict` | main.py:60 | exactly 15 miles is not flagged, every distance over 15 miles is, and none at or below 15 miles is |
| `Heuristics.DistanceFlagMonotone` | main.py:60 | a larger distance never clears a distance flag |
| `ReturnCheck.Geocode` | main.py:46-53 | a geocoder call succeeds exactly when the service resolves the city and zip, and returns those coordinates; otherwise the error is "geocoding failed" |
| `ReturnCheck.ParcelOunces` | main.py:63-65 | the weight step fails with "weight not found" exactly when the tracker has no weight; a weight of zero is accepted |
| `ReturnCheck.CheckReturn` | main.py:24-91 | on success the reply had status 200, `is_fraud` is the OR of the two reported flags, the weight flag implies an item over 1 lb, the shipping city and expected weight are echoed, and the drop-off city is non-empty |
| `ReturnCheck.SuccessfulCheck` | main.py:55-91 | when every step succeeds, the result reports the rounded distance and weight, while both flags and `is_fraud` come from the unrounded distance and from ounces / 16 |
| `ReturnCheck.FirstFailure` | main.py:30-65 | gives no error exactly when no guard fails, and otherwise the error of a failing guard with no failing guard before it |
| `ReturnCheck.ErrorPrecedence` | main.py:30-65 | the check fails exactly when one of the guards fails, and then with the error of the first failing guard; the guard order is status, tracker contents, drop-off completeness, shipping geocode, drop-off geocode, weight |
| `ReturnCheck.WeightCheckedAfterGeocoding` | main.py:55-65 | a "weight not found" error implies that both the shipping address and the drop-off address were geocoded |
| `ReturnCheck.FetchFailureFirst` | main.py:29-31 | a non-200 tracking status gives the fetch error, whatever the rest of the reply and the services are |
| `ReturnCheck.BothHeuristicsFlag` | main.py:59-91 | a 5 lb item returned as 48 oz (3 lb), with the distance service answering 18.9 miles, is flagged on distance and on weight, and so is fraud |

## Left out

- HTTP calls to the tracking and geocoding services (URLs, headers, API keys, JSON decoding). The replies are inputs: `fetchTracker` and `geocode` in `Services`.
- Inside the geocoder, an OK reply with an empty result list would raise an uncaught index error. That belongs to the geocoder collaborator, which is not part of this model.
- Malformed JSON in the replies, such as a non-string city or a non-numeric weight. The model gives the fields their intended types.
- The ellipsoidal geodesic distance. It is an opaque non-negative function `geodesicMiles`.
- `round(…, 2)` for display. It is the abstract function `round2`. The flags never depend on it.
- Floating-point arithmetic. Weights and distances are exact reals.
- FastAPI and pydantic wiring, and the HTTP status codes and messages of the raised exceptions. Each exception is one `CheckError` kind. Both geocoding failures raise the same exception, so they share one kind.
- `order_id` is carried in the request but used by nothing.
- Address normalisation and duplicate-order detection with its order store are not part of this model. The handler has no code for them.
