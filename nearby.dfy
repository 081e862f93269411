/**
 * The nearby destinations screen (src/screens/NearbyDestinationsScreen.js):
 * six fixed destinations, a one-shot location fetch that moves the screen
 * from loading to either an error message or a list ranked by distance, and
 * the travel type filter applied when the list is shown.
 */
module Nearby {
  import opened Wrappers
  import opened Navigation
  import opened Ranking
  import Survey

  const DestinationData: seq<Destination> := [
    Destination("New York City", "USA", "Cultural", Coordinates(40.7128, -74.006)),
    Destination("Tokyo", "Japan", "Food", Coordinates(35.6762, 139.6503)),
    Destination("Rome", "Italy", "Cultural", Coordinates(41.9028, 12.4964)),
    Destination("Paris", "France", "Relaxation", Coordinates(48.8566, 2.3522)),
    Destination("Sydney", "Australia", "Adventure", Coordinates(-33.8688, 151.2093)),
    Destination("Bangkok", "Thailand", "Food", Coordinates(13.7563, 100.5018))
  ]

  /** Every travel type the survey offers has at least one destination. */
  lemma EveryTravelTypeHasDestination(travelType: string)
    requires travelType in Survey.TravelTypes
    ensures exists i | 0 <= i < |DestinationData| :: DestinationData[i].travelType == travelType
  {
    if travelType == "Adventure" {
      assert DestinationData[4].travelType == travelType;
    } else if travelType == "Relaxation" {
      assert DestinationData[3].travelType == travelType;
    } else if travelType == "Cultural" {
      assert DestinationData[0].travelType == travelType;
    } else {
      assert DestinationData[1].travelType == travelType;
    }
  }

  /** The list a successful fetch at `here` stores: tagged with distances, then sorted. */
  function RankedFrom(here: Coordinates, distanceKm: (Coordinates, Coordinates) -> real): (ranked: seq<RankedDestination>)
    ensures |ranked| == |DestinationData|
  {
    StableSort(WithDistances(DestinationData, here, distanceKm))
  }

  /**
   * The ranked list holds one copy of each destination, unchanged apart from
   * its distance from `here`, in ascending order of distance, with equally
   * distant destinations in the order of `DestinationData`.
   */
  lemma RankedFromProperties(here: Coordinates, distanceKm: (Coordinates, Coordinates) -> real, d: real)
    ensures var tagged, ranked := WithDistances(DestinationData, here, distanceKm), RankedFrom(here, distanceKm);
            |ranked| == |DestinationData| &&
            multiset(ranked) == multiset(tagged) &&
            SortedByDistance(ranked) &&
            Filter(ranked, DistanceIs(d)) == Filter(tagged, DistanceIs(d)) &&
            forall x | x in ranked ::
              Untag(x) in DestinationData && x.distance == distanceKm(here, x.coordinates)
  {
    var tagged, ranked := WithDistances(DestinationData, here, distanceKm), RankedFrom(here, distanceKm);
    StableSortPermutes(tagged);
    StableSortSorted(tagged);
    StableSortStable(tagged, d);
    assert |ranked| == |multiset(ranked)| == |multiset(tagged)| == |tagged|;
    forall x | x in ranked
      ensures Untag(x) in DestinationData && x.distance == distanceKm(here, x.coordinates)
    {
      assert x in multiset(tagged);
      var i :| 0 <= i < |tagged| && tagged[i] == x;
    }
  }

  /**
   * After a successful fetch, filtering by any travel type the survey
   * offers leaves at least one destination.
   */
  lemma SurveyChoiceNeverEmpty(here: Coordinates, distanceKm: (Coordinates, Coordinates) -> real, travelType: string)
    requires travelType in Survey.TravelTypes
    ensures FilterByTravelType(RankedFrom(here, distanceKm), travelType) != []
  {
    EveryTravelTypeHasDestination(travelType);
    var i :| 0 <= i < |DestinationData| && DestinationData[i].travelType == travelType;
    var tagged := WithDistances(DestinationData, here, distanceKm);
    var x := tagged[i];
    assert Untag(x) == DestinationData[i];
    StableSortPermutes(tagged);
    assert x in multiset(RankedFrom(here, distanceKm));
    FilterByTravelTypeCounts(RankedFrom(here, distanceKm), travelType, x);
  }

  /** A destination strictly nearer than every other one is ranked first. */
  lemma NearestRanksFirst(here: Coordinates, distanceKm: (Coordinates, Coordinates) -> real, n: nat)
    requires n < |DestinationData|
    requires forall i | 0 <= i < |DestinationData| && i != n ::
               distanceKm(here, DestinationData[n].coordinates) < distanceKm(here, DestinationData[i].coordinates)
    ensures RankedFrom(here, distanceKm)[0] == WithDistances(DestinationData, here, distanceKm)[n]
  {
    var tagged, ranked := WithDistances(DestinationData, here, distanceKm), RankedFrom(here, distanceKm);
    RankedFromProperties(here, distanceKm, 0.0);
    assert ranked[0] in multiset(tagged);
    var k :| 0 <= k < |tagged| && tagged[k] == ranked[0];
    assert tagged[n] in multiset(ranked);
    var m :| 0 <= m < |ranked| && ranked[m] == tagged[n];
    assert ranked[0].distance <= ranked[m].distance;
    assert k == n;
  }

  /** How the location request ends. */
  datatype LocationOutcome =
    | PermissionDenied               // any permission status but "granted"
    | Located(position: Option<Coordinates>)   // the current position, if any
    | Failed(message: string)        // an exception from the location service

  const PermissionDeniedMessage := "Location permission was denied"
  const ErrorPrefix := "Error getting location: "

  /** The component state of the nearby destinations screen. */
  class NearbyScreen {
    const userName: string
    const email: string
    const travelType: string
    var location: Option<Coordinates>
    var errorMsg: Option<string>
    var loading: bool
    var destinations: seq<RankedDestination>

    /** The list shown is either empty or a full ranking, always ascending. */
    ghost predicate Valid()
      reads this
    {
      SortedByDistance(destinations) &&
      (destinations == [] || |destinations| == |DestinationData|)
    }

    /** Reads the route parameters (defaults "Guest", "", "") and starts loading. */
    constructor (params: Option<RouteParams>)
      ensures Identity(userName, email) == IdentityOf(params) && travelType == TravelTypeOf(params)
      ensures location == None && errorMsg == None && loading && destinations == []
      ensures Valid()
    {
      var id := IdentityOf(params);
      userName, email, travelType := id.userName, id.email, TravelTypeOf(params);
      location, errorMsg, loading, destinations := None, None, true, [];
    }

    /**
     * `getLocationAsync`, given how the location request ends. Every path
     * ends with `loading` false; only a delivered position changes the list.
     */
    method GetLocationAsync(outcome: LocationOutcome, distanceKm: (Coordinates, Coordinates) -> real)
      requires Valid()
      modifies this`location, this`errorMsg, this`loading, this`destinations
      ensures Valid() && !loading
      ensures outcome.PermissionDenied? ==>
                errorMsg == Some(PermissionDeniedMessage) &&
                location == old(location) && destinations == old(destinations)
      ensures outcome.Failed? ==>
                errorMsg == Some(ErrorPrefix + outcome.message) &&
                location == old(location) && destinations == old(destinations)
      ensures outcome.Located? ==> location == outcome.position && errorMsg == old(errorMsg)
      ensures outcome.Located? && outcome.position.None? ==> destinations == old(destinations)
      ensures outcome.Located? && outcome.position.Some? ==>
                destinations == RankedFrom(outcome.position.value, distanceKm)
    {
      match outcome
      case PermissionDenied =>
        errorMsg := Some(PermissionDeniedMessage);
        loading := false;
      case Failed(message) =>
        errorMsg := Some(ErrorPrefix + message);
        loading := false;
      case Located(position) =>
        location := position;
        if position.Some? {
          var tagged := WithDistances(DestinationData, position.value, distanceKm);
          var ranked := new RankedDestination[|tagged|](i requires 0 <= i < |tagged| => tagged[i]);
          assert ranked[..] == tagged;
          SortByDistance(ranked);
          destinations := ranked[..];
          RankedFromProperties(position.value, distanceKm, 0.0);
        }
        loading := false;
    }

    /** `filteredDestinations`: what the list section shows. */
    function FilteredDestinations(): (shown: seq<RankedDestination>)
      reads this
      requires Valid()
      ensures travelType == "" ==> shown == destinations
      ensures travelType != "" ==>
                forall x :: multiset(shown)[x] == (if x.travelType == travelType then multiset(destinations)[x] else 0)
      ensures IsSubsequence(shown, destinations)
      ensures SortedByDistance(shown)
    {
      var shown := FilterByTravelType(destinations, travelType);
      FilterByTravelTypeKeepsOrder(destinations, travelType);
      assert travelType != "" ==>
               forall x :: multiset(shown)[x] == (if x.travelType == travelType then multiset(destinations)[x] else 0) by {
        if travelType != "" {
          forall x
            ensures multiset(shown)[x] == if x.travelType == travelType then multiset(destinations)[x] else 0
          {
            FilterByTravelTypeCounts(destinations, travelType, x);
          }
        }
      }
      shown
    }
  }
}
