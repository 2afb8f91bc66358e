/** The two fraud heuristics of the return check: the distance between the
    shipping address and the drop-off point, and the returned parcel weight
    against the expected item weight. */
module Heuristics {
  import opened Wrappers

  /** Ounces in one avoirdupois pound. */
  const OuncesPerPound: real := 16.0

  /** Distances strictly beyond this many miles are flagged. */
  const DistanceLimitMiles: real := 15.0

  /** The returned parcel weight in pounds. */
  function ReturnedPounds(ounces: real): (pounds: real)
    ensures pounds * OuncesPerPound == ounces
  {
    ounces / OuncesPerPound
  }

  /** The distance heuristic: drop-off too far from the shipping address. */
  predicate DistanceFlagged(miles: real) {
    miles > DistanceLimitMiles
  }

  /** The weight heuristic's tier table, on the expected item weight and the
      returned weight, both in pounds. Only a deficit is ever flagged, and
      an item of at most one pound is never flagged. */
  function WeightFlagged(expectedLbs: real, returnedLbs: real): (flagged: bool)
    ensures flagged ==> 1.0 < expectedLbs && returnedLbs < expectedLbs
  {
    if 1.0 < expectedLbs <= 3.0 then returnedLbs < 1.0
    else if 3.0 < expectedLbs <= 8.0 then expectedLbs - returnedLbs > 1.0
    else if 8.0 < expectedLbs then expectedLbs - returnedLbs > 2.0
    else false
  }

  /** An independent reading of the tier table: the lightest returned weight
      that passes unflagged, or None when the item's tier checks nothing. */
  function AcceptedMinimum(expectedLbs: real): (min: Option<real>)
    ensures min.Some? <==> expectedLbs > 1.0
    ensures min.Some? ==> min.value < expectedLbs
  {
    if expectedLbs <= 1.0 then None
    else if expectedLbs <= 3.0 then Some(1.0)
    else if expectedLbs <= 8.0 then Some(expectedLbs - 1.0)
    else Some(expectedLbs - 2.0)
  }

  /** The tier table flags exactly the returns lighter than the accepted
      minimum of their tier. */
  lemma WeightFlaggedIffBelowMinimum(expectedLbs: real, returnedLbs: real)
    ensures WeightFlagged(expectedLbs, returnedLbs)
        <==> AcceptedMinimum(expectedLbs).Some? && returnedLbs < AcceptedMinimum(expectedLbs).value
  {
  }

  /** Items over 1 lb up to 3 lb: flagged exactly when under 1 lb comes back. */
  lemma LightTier(expectedLbs: real, returnedLbs: real)
    requires 1.0 < expectedLbs <= 3.0
    ensures WeightFlagged(expectedLbs, returnedLbs) <==> returnedLbs < 1.0
  {
  }

  /** Items over 3 lb up to 8 lb: flagged exactly when more than 1 lb is missing. */
  lemma MediumTier(expectedLbs: real, returnedLbs: real)
    requires 3.0 < expectedLbs <= 8.0
    ensures WeightFlagged(expectedLbs, returnedLbs) <==> expectedLbs - returnedLbs > 1.0
  {
  }

  /** Items over 8 lb: flagged exactly when more than 2 lb are missing. */
  lemma HeavyTier(expectedLbs: real, returnedLbs: real)
    requires 8.0 < expectedLbs
    ensures WeightFlagged(expectedLbs, returnedLbs) <==> expectedLbs - returnedLbs > 2.0
  {
  }

  /** No tier applies to items of 1 lb or less, whatever comes back. */
  lemma LightItemsNeverFlagged(expectedLbs: real, returnedLbs: real)
    requires expectedLbs <= 1.0
    ensures !WeightFlagged(expectedLbs, returnedLbs)
  {
  }

  /** A return at least as heavy as the item is never flagged, in any tier. */
  lemma NoDeficitNeverFlagged(expectedLbs: real, returnedLbs: real)
    requires returnedLbs >= expectedLbs
    ensures !WeightFlagged(expectedLbs, returnedLbs)
  {
  }

  /** A heavier return is never more suspicious than a lighter one of the
      same item. */
  lemma WeightFlagAntitone(expectedLbs: real, lighter: real, heavier: real)
    requires lighter <= heavier
    ensures WeightFlagged(expectedLbs, heavier) ==> WeightFlagged(expectedLbs, lighter)
  {
  }

  /** The tolerance widens from 1 lb to 2 lb above 8 lb, so the flag is not
      monotone in the expected weight: the same 6.5 lb return is flagged for
      an 8 lb item and passes for an 8.5 lb one. */
  lemma ToleranceWidensAboveEightPounds()
    ensures WeightFlagged(8.0, 6.5)
    ensures !WeightFlagged(8.5, 6.5)
  {
  }

  /** The weight tiers restated on the ounce reading the tracker reports. */
  lemma WeightFlaggedInOunces(expectedLbs: real, ounces: real)
    ensures WeightFlagged(expectedLbs, ReturnedPounds(ounces))
        <==> AcceptedMinimum(expectedLbs).Some?
             && ounces < AcceptedMinimum(expectedLbs).value * OuncesPerPound
  {
  }

  /** The distance flag is strict at the limit: exactly 15 miles passes. */
  lemma DistanceLimitIsStrict(miles: real)
    ensures !DistanceFlagged(15.0)
    ensures miles > 15.0 ==> DistanceFlagged(miles)
    ensures miles <= 15.0 ==> !DistanceFlagged(miles)
  {
  }

  /** Moving the drop-off farther away never clears a distance flag. */
  lemma DistanceFlagMonotone(nearer: real, farther: real)
    requires nearer <= farther
    ensures DistanceFlagged(nearer) ==> DistanceFlagged(farther)
  {
  }
}
