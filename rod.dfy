/**
 * The player's fishing rod: which fishing point is active, the trigger guard
 * that keeps a single point active, the re-scan for the nearest point after
 * leaving one, the rod's parameters and the last caught fish.
 *
 * The engine's overlap query and distance computation are replaced by their
 * results: a sequence of hits, each with the hit collider's fishing point (or
 * None when the collider has none) and its distance to the rod.
 */
module Rod {
  import opened Options

  /** Opaque identity of a FishingPoint component. */
  type PointId = nat

  /** A collider returned by the overlap query. */
  datatype Hit = Hit(point: Option<PointId>, distance: real)

  /** A fishing point found by the re-scan, with its distance to the rod. */
  datatype Candidate = Candidate(point: PointId, distance: real)

  datatype Fish = Fish(weight: real, cost: int)

  datatype FishingRodAsset = FishingRodAsset(
    name: string, description: string, speed: real, radius: real, cost: int)

  /** Calls the rod makes on other objects, in order. */
  datatype RodEvent =
    | SetActive(point: PointId, active: bool)
    | FishingPlaceNearby(nearby: bool)
    | FishAssigned
    | ShipWeightChanged(weight: real)
    | ShipCostChanged(cost: int)

  /** The fishing points among the hits, in hit order. */
  function FishingPointsOf(hits: seq<Hit>): (r: seq<Candidate>)
    ensures |r| <= |hits|
    ensures forall c :: c in r <==> Hit(Some(c.point), c.distance) in hits
    decreases |hits|
  {
    if hits == [] then []
    else
      var last := hits[|hits| - 1];
      var front := FishingPointsOf(hits[..|hits| - 1]);
      assert hits == hits[..|hits| - 1] + [last];
      front + (if last.point.Some? then [Candidate(last.point.value, last.distance)] else [])
  }

  /** Candidate i is nearest, and strictly nearer than every earlier one:
      the point a scan with a strict `<` keeps. */
  predicate IsFirstNearest(points: seq<Candidate>, i: int) {
    0 <= i < |points| &&
    (forall j :: 0 <= j < |points| ==> points[i].distance <= points[j].distance) &&
    (forall j :: 0 <= j < i ==> points[j].distance > points[i].distance)
  }

  /** There is at most one such candidate, so the choice is deterministic. */
  lemma FirstNearestUnique(points: seq<Candidate>, i: int, k: int)
    requires IsFirstNearest(points, i) && IsFirstNearest(points, k)
    ensures i == k
  {
    assert points[i].distance == points[k].distance;
  }

  /** A at distance 5 then B at distance 2: B is chosen; two equally near
      points: the first one is chosen. */
  lemma NearestScenarios()
    ensures IsFirstNearest([Candidate(0, 5.0), Candidate(1, 2.0)], 1)
    ensures IsFirstNearest([Candidate(0, 2.0), Candidate(1, 2.0)], 0)
    ensures !IsFirstNearest([Candidate(0, 2.0), Candidate(1, 2.0)], 1)
  {
  }

  /** The first loop of FindFishNearby: keep the hits that carry a fishing point. */
  method CollectFishingPoints(hits: seq<Hit>) returns (points: seq<Candidate>)
    ensures points == FishingPointsOf(hits)
  {
    points := [];
    var k := 0;
    while k < |hits|
      invariant 0 <= k <= |hits|
      invariant points == FishingPointsOf(hits[..k])
    {
      assert hits[..k + 1][..k] == hits[..k];
      var hit := hits[k];
      if hit.point.Some? {
        points := points + [Candidate(hit.point.value, hit.distance)];
      }
      k := k + 1;
    }
    assert hits[..|hits|] == hits;
  }

  /**
   * The second loop of FindFishNearby: the candidate with the smallest
   * distance, a later one replacing the current choice only when strictly
   * nearer. `minDistance == None` stands for the initial infinite distance.
   */
  method ClosestFishingPoint(points: seq<Candidate>) returns (closest: Option<PointId>)
    ensures closest.None? <==> points == []
    ensures closest.Some? ==>
              exists i :: IsFirstNearest(points, i) && points[i].point == closest.value
  {
    closest := None;
    var minDistance: Option<real> := None;
    ghost var best := 0;
    var k := 0;
    while k < |points|
      invariant 0 <= k <= |points|
      invariant closest.None? <==> k == 0
      invariant minDistance.None? <==> k == 0
      invariant k > 0 ==>
                  IsFirstNearest(points[..k], best) &&
                  closest == Some(points[best].point) &&
                  minDistance == Some(points[best].distance)
    {
      var distance := points[k].distance;
      if minDistance.None? || distance < minDistance.value {
        minDistance := Some(distance);
        closest := Some(points[k].point);
        best := k;
      }
      k := k + 1;
    }
    assert points[..|points|] == points;
  }

  class FishingRod {
    var name: string
    var description: string
    var radius: real
    var speed: real
    var cost: int
    /** The radius of the rod's trigger collider. */
    var colliderRadius: real
    var activeFishingPoint: Option<PointId>
    var caughtFish: Option<Fish>
    var isTriggered: bool
    ghost var events: seq<RodEvent>

    /** The trigger guard is set exactly when a point is active. */
    ghost predicate Valid()
      reads this
    {
      isTriggered <==> activeFishingPoint.Some?
    }

    /** A freshly instantiated rod, before Start. */
    constructor ()
      ensures Valid() && !isTriggered && caughtFish == None && events == []
    {
      name, description := "", "";
      radius, speed, cost, colliderRadius := 0.0, 0.0, 0, 0.0;
      activeFishingPoint := None;
      caughtFish := None;
      isTriggered := false;
      events := [];
    }

    method Start(asset: FishingRodAsset)
      modifies this`name, this`description, this`speed, this`radius, this`cost, this`colliderRadius
      ensures name == asset.name && description == asset.description
      ensures speed == asset.speed && radius == asset.radius && cost == asset.cost
      ensures colliderRadius == radius
    {
      Initialize(asset);
    }

    /** Entering a trigger: only a fishing point entered while no point is
        active becomes active; anything else is absorbed with no event. */
    method OnTriggerEnter2D(point: Option<PointId>)
      requires Valid()
      modifies this`isTriggered, this`activeFishingPoint, this`events
      ensures Valid()
      ensures point.None? || old(isTriggered) ==>
                activeFishingPoint == old(activeFishingPoint) && events == old(events)
      ensures point.Some? && !old(isTriggered) ==>
                activeFishingPoint == point &&
                events == old(events) + [SetActive(point.value, true), FishingPlaceNearby(true)]
    {
      if point.Some? {
        if !isTriggered {
          isTriggered := true;
          activeFishingPoint := point;
          events := events + [SetActive(point.value, true)];
          events := events + [FishingPlaceNearby(true)];
        }
      }
    }

    /**
     * Leaving a trigger: a fishing point that is left is deactivated (whether
     * or not it was the active one), the active point is cleared, the button
     * is told that no point is near, and the overlap `hits` are re-scanned.
     */
    method OnTriggerExit2D(point: Option<PointId>, hits: seq<Hit>)
      requires Valid()
      modifies this`isTriggered, this`activeFishingPoint, this`events
      ensures Valid()
      ensures point.None? ==>
                isTriggered == old(isTriggered) &&
                activeFishingPoint == old(activeFishingPoint) && events == old(events)
      ensures point.Some? && FishingPointsOf(hits) == [] ==>
                activeFishingPoint == None &&
                events == old(events) + [SetActive(point.value, false), FishingPlaceNearby(false)]
      ensures point.Some? && FishingPointsOf(hits) != [] ==>
                exists i :: IsFirstNearest(FishingPointsOf(hits), i) &&
                  var nearest := FishingPointsOf(hits)[i].point;
                  activeFishingPoint == Some(nearest) &&
                  events == old(events) + [SetActive(point.value, false), FishingPlaceNearby(false),
                                           SetActive(nearest, true), FishingPlaceNearby(true)]
    {
      if point.Some? {
        isTriggered := false;
        activeFishingPoint := point;
        events := events + [SetActive(point.value, false)];
        activeFishingPoint := None;
        events := events + [FishingPlaceNearby(false)];
        FindFishNearby(hits);
      }
    }

    /** The re-scan: when no point is active, the nearest fishing point among
        the hits (the first of equally near ones) becomes active. */
    method FindFishNearby(hits: seq<Hit>)
      requires Valid()
      modifies this`isTriggered, this`activeFishingPoint, this`events
      ensures Valid()
      ensures old(isTriggered) || FishingPointsOf(hits) == [] ==>
                isTriggered == old(isTriggered) &&
                activeFishingPoint == old(activeFishingPoint) && events == old(events)
      ensures !old(isTriggered) && FishingPointsOf(hits) != [] ==>
                exists i :: IsFirstNearest(FishingPointsOf(hits), i) &&
                  var nearest := FishingPointsOf(hits)[i].point;
                  activeFishingPoint == Some(nearest) &&
                  events == old(events) + [SetActive(nearest, true), FishingPlaceNearby(true)]
    {
      if |hits| > 0 {
        var fishingPoints := CollectFishingPoints(hits);
        var closestFishingPoint := ClosestFishingPoint(fishingPoints);
        if closestFishingPoint.Some? {
          if !isTriggered {
            isTriggered := true;
            activeFishingPoint := closestFishingPoint;
            events := events + [SetActive(closestFishingPoint.value, true)];
            events := events + [FishingPlaceNearby(true)];
          }
        }
      }
    }

    method Initialize(asset: FishingRodAsset)
      modifies this`name, this`description, this`speed, this`radius, this`cost, this`colliderRadius
      ensures name == asset.name && description == asset.description
      ensures speed == asset.speed && radius == asset.radius && cost == asset.cost
      ensures colliderRadius == radius
    {
      name := asset.name;
      description := asset.description;
      speed := asset.speed;
      radius := asset.radius;
      cost := asset.cost;
      colliderRadius := radius;
    }

    /** Stores the fish exactly as given, None included. */
    method AssignFish(fish: Option<Fish>)
      modifies this`caughtFish, this`events
      ensures caughtFish == fish && events == old(events) + [FishAssigned]
    {
      caughtFish := fish;
      events := events + [FishAssigned];
    }

    /** Adds the caught fish's weight and cost to the ship's container. */
    method TryPutFishInShip()
      modifies this`events
      ensures caughtFish.None? ==> events == old(events)
      ensures caughtFish.Some? ==>
                events == old(events) + [ShipWeightChanged(caughtFish.value.weight),
                                         ShipCostChanged(caughtFish.value.cost)]
    {
      if caughtFish.Some? {
        events := events + [ShipWeightChanged(caughtFish.value.weight)];
        events := events + [ShipCostChanged(caughtFish.value.cost)];
      }
    }
  }
}
