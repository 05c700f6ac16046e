/** The map screen. While the user is being guided to a place ("direction
    mode"), every location update may recompute the walking route, but at
    most once every five seconds: the first update always recomputes, and a
    later one only when strictly more than five seconds have passed since
    the last recomputation it made. The screen also marks every catalog card
    the user does not own yet. */
module MapScreen {
  import opened Common
  import opened Ownership

  /** `minTimeBetweenUpdates`, in seconds. */
  const MinTimeBetweenUpdates: real := 5.0

  datatype ThrottleDecision = ThrottleDecision(fire: bool, last: Option<real>)

  /** `checkAndUpdateRoute` as a decision on the time of the last
      recomputation it made and the current clock reading: whether to
      recompute now, and the time of the last recomputation afterwards. */
  function Throttle(last: Option<real>, now: real): (d: ThrottleDecision)
    ensures last.None? ==> d.fire && d.last == Some(now)
    ensures last.Some? ==> (d.fire <==> now - last.value > MinTimeBetweenUpdates)
    ensures d.fire ==> d.last == Some(now)
    ensures !d.fire ==> d.last == last
  {
    match last
    case None => ThrottleDecision(true, Some(now))
    case Some(t) =>
      if now - t > MinTimeBetweenUpdates then ThrottleDecision(true, Some(now))
      else ThrottleDecision(false, last)
  }

  /** The clock readings at which a stream of location updates recomputed
      the route, starting from a last recomputation time `last`. */
  function Fires(last: Option<real>, updates: seq<real>): seq<real>
    decreases |updates|
  {
    if updates == [] then []
    else
      var d := Throttle(last, updates[0]);
      (if d.fire then [updates[0]] else []) + Fires(d.last, updates[1..])
  }

  /** Recomputations more than five seconds apart, each from the one
      before. */
  ghost predicate Spaced(times: seq<real>) {
    forall i :: 0 < i < |times| ==> times[i] - times[i - 1] > MinTimeBetweenUpdates
  }

  /** Throttled recomputations are spaced, the first one after a previous
      recomputation at `last` is more than five seconds after it, and a first
      update with no previous recomputation always recomputes. */
  lemma {:induction false} FiresAreSpaced(last: Option<real>, updates: seq<real>)
    ensures var f := Fires(last, updates);
      Spaced(f) && (last.Some? && f != [] ==> f[0] - last.value > MinTimeBetweenUpdates)
    ensures last.None? && updates != [] ==> Fires(last, updates) != [] && Fires(last, updates)[0] == updates[0]
    decreases |updates|
  {
    if updates != [] {
      var d := Throttle(last, updates[0]);
      FiresAreSpaced(d.last, updates[1..]);
      var rest := Fires(d.last, updates[1..]);
      var f := Fires(last, updates);
      if d.fire {
        assert f == [updates[0]] + rest;
        forall i | 0 < i < |f| ensures f[i] - f[i - 1] > MinTimeBetweenUpdates {
          if i > 1 {
            assert f[i] == rest[i - 1] && f[i - 1] == rest[i - 2];
          }
        }
      } else {
        assert f == rest;
      }
    }
  }

  /** Hence no two recomputations fall within one five-second window: any
      two of them, not only neighbours, are more than five seconds apart. */
  lemma {:induction false} SpacedIsPairwise(times: seq<real>, i: nat, j: nat)
    requires Spaced(times)
    requires i < j < |times|
    ensures times[j] - times[i] > MinTimeBetweenUpdates
    decreases j - i
  {
    if j > i + 1 {
      SpacedIsPairwise(times, i, j - 1);
      assert times[j] - times[j - 1] > MinTimeBetweenUpdates;
    }
  }

  /** An `MKRoute`; only which route is shown matters here. */
  datatype Route = Route(name: string)

  /** A walking-directions request: from the user's position to a place. */
  datatype DirectionsRequest = DirectionsRequest(source: Coordinates, destination: Coordinates)

  /** The map view's state for the route: the time of the throttle's last
      recomputation, whether direction mode is on, the route drawn, the
      place whose detail sheet was opened, and the directions requests made
      so far. */
  class MapViewState {
    var lastDirectionsUpdateTime: Option<real>
    var isInDirectionMode: bool
    var route: Option<Route>
    var selectedPlace: Option<Place>
    var showDetailView: bool
    var directionRequests: seq<DirectionsRequest>
    /** The clock readings at which the throttle recomputed the route. */
    ghost var throttledFires: seq<real>

    /** Direction mode is only ever on for a selected place, so the forced
        unwrap of the selected place in `getDirections` cannot fail on the
        throttled path; the recorded last update time is the throttle's last
        recomputation; recomputations are more than five seconds apart. */
    ghost predicate Valid()
      reads this
    {
      && (isInDirectionMode ==> selectedPlace.Some?)
      && (directionRequests != [] ==> selectedPlace.Some?)
      && (lastDirectionsUpdateTime.None? <==> throttledFires == [])
      && (lastDirectionsUpdateTime.Some? ==> lastDirectionsUpdateTime.value == Last(throttledFires))
      && Spaced(throttledFires)
    }

    constructor ()
      ensures Valid()
      ensures lastDirectionsUpdateTime == None && !isInDirectionMode && route == None
      ensures selectedPlace == None && !showDetailView && directionRequests == []
    {
      lastDirectionsUpdateTime := None;
      isInDirectionMode := false;
      route := None;
      selectedPlace := None;
      showDetailView := false;
      directionRequests := [];
      throttledFires := [];
    }

    /** Tapping a place's marker selects it and opens its detail sheet. */
    method SelectPlace(place: Place)
      requires Valid()
      modifies this`selectedPlace, this`showDetailView
      ensures Valid()
      ensures selectedPlace == Some(place) && showDetailView
    {
      selectedPlace := Some(place);
      showDetailView := true;
    }

    /** `getDirections`: a walking-directions request from the user's
        position to the selected place. The calculation itself runs
        asynchronously; its outcome arrives through `DirectionsCalculated`.
        The source force-unwraps the selected place. */
    method GetDirections(userCoordinate: Coordinates)
      requires Valid() && selectedPlace.Some?
      modifies this`directionRequests
      ensures Valid()
      ensures directionRequests == old(directionRequests) + [DirectionsRequest(userCoordinate, selectedPlace.value.coordinates)]
    {
      directionRequests := directionRequests + [DirectionsRequest(userCoordinate, selectedPlace.value.coordinates)];
    }

    /** The outcome of a directions calculation: on success the first route
        of the response (possibly none) is drawn and direction mode turns on;
        a failure is only logged and changes nothing. */
    method DirectionsCalculated(response: Result<seq<Route>>)
      requires Valid() && directionRequests != []
      modifies this`route, this`isInDirectionMode
      ensures Valid()
      ensures response.Failure? ==> route == old(route) && isInDirectionMode == old(isInDirectionMode)
      ensures response.Success? ==>
        isInDirectionMode && route == (if response.value == [] then None else Some(response.value[0]))
    {
      match response {
        case Success(routes) =>
          route := if routes == [] then None else Some(routes[0]);
          isInDirectionMode := true;
        case Failure(_) =>
      }
    }

    /** `checkAndUpdateRoute`, run with the current clock reading. */
    method CheckAndUpdateRoute(now: real, userCoordinate: Coordinates)
      requires Valid() && isInDirectionMode
      modifies this`lastDirectionsUpdateTime, this`directionRequests, this`throttledFires
      ensures Valid()
      ensures var d := Throttle(old(lastDirectionsUpdateTime), now);
        && lastDirectionsUpdateTime == d.last
        && throttledFires == old(throttledFires) + (if d.fire then [now] else [])
        && directionRequests == old(directionRequests)
             + (if d.fire then [DirectionsRequest(userCoordinate, selectedPlace.value.coordinates)] else [])
    {
      if lastDirectionsUpdateTime.None? {
        GetDirections(userCoordinate);
        lastDirectionsUpdateTime := Some(now);
        throttledFires := [now];
        return;
      }
      var timeSinceLastUpdate := now - lastDirectionsUpdateTime.value;
      if timeSinceLastUpdate > MinTimeBetweenUpdates {
        GetDirections(userCoordinate);
        lastDirectionsUpdateTime := Some(now);
        throttledFires := throttledFires + [now];
      }
    }

    /** The handler `updateRoute` registers for location updates: the
        throttle runs only in direction mode; otherwise nothing changes. */
    method OnUserLocationUpdated(now: real, userCoordinate: Coordinates)
      requires Valid()
      modifies this`lastDirectionsUpdateTime, this`directionRequests, this`throttledFires
      ensures Valid()
      ensures !isInDirectionMode ==>
        && lastDirectionsUpdateTime == old(lastDirectionsUpdateTime)
        && directionRequests == old(directionRequests)
        && throttledFires == old(throttledFires)
      ensures isInDirectionMode ==> var d := Throttle(old(lastDirectionsUpdateTime), now);
        && lastDirectionsUpdateTime == d.last
        && throttledFires == old(throttledFires) + (if d.fire then [now] else [])
        && directionRequests == old(directionRequests)
             + (if d.fire then [DirectionsRequest(userCoordinate, selectedPlace.value.coordinates)] else [])
    {
      if isInDirectionMode {
        CheckAndUpdateRoute(now, userCoordinate);
      }
    }
  }

  /** The map's card source: the bundled catalog and the ids the signed-in
      user owns. */
  class CardsManager {
    var cardsFromJson: seq<Place>
    var userPossessedCards: seq<string>

    constructor ()
      ensures cardsFromJson == [] && userPossessedCards == []
    {
      cardsFromJson := [];
      userPossessedCards := [];
    }

    /** `getCardsFromJson`: the loaded catalog, or empty when loading gives
        nothing. */
    method GetCardsFromJson(loaded: Option<seq<Place>>)
      modifies this`cardsFromJson
      ensures cardsFromJson == (if loaded.Some? then loaded.value else [])
    {
      cardsFromJson := loaded.GetOr([]);
    }

    /** `getCardsFromFirestore`: with no signed-in user nothing is fetched;
        otherwise the user's document is fetched (its uid is returned) and
        the possession list is replaced only when the fetch gives a document
        and no error, a document without `cardPossessed` giving the empty
        list. */
    method GetCardsFromFirestore(user: Option<AuthUser>, response: DocResponse) returns (fetchedFor: Option<string>)
      modifies this`userPossessedCards
      ensures fetchedFor == (if user.Some? then Some(user.value.uid) else None)
      ensures userPossessedCards
        == if user.Some? && response.error.None? && response.document.Some?
           then response.document.value.cardPossessed.GetOr([])
           else old(userPossessedCards)
    {
      if user.None? {
        return None;
      }
      fetchedFor := Some(user.value.uid);
      if response.error.Some? {
        return;
      }
      if response.document.None? {
        return;
      }
      userPossessedCards := response.document.value.cardPossessed.GetOr([]);
    }

    /** The cards that get a marker on the map: exactly the catalog cards the
        user does not own, in catalog order. */
    function AnnotatedCards(): (r: seq<Place>)
      reads this
      ensures forall c :: c in r <==> c in cardsFromJson && c.id !in userPossessedCards
    {
      Unowned(cardsFromJson, userPossessedCards)
    }
  }
}
