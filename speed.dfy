/**
 * The per-tick speed update of a vehicle: accelerate towards the top speed,
 * then slow down in proportion to the distance of the first blocking vehicle
 * the forward ray hits, in the order the vehicles are listed.
 * Speeds and distances are exact reals standing for the program's doubles.
 */
module Speed {

  /** `Number.MAX_VALUE`, the "nothing hit yet" distance. */
  const MaxValue: real := 179769313486231570814527423731704356798070567525844996598917476803157260780028538760589558632766878171540458953514382464234321326889464182768467546703537516986049910576551282076245490090389328944075868508455133942304583236903222948165808559332123348274797826204144723168738177180919299881250404026184124858368.0

  /**
   * Another vehicle as the sensing vehicle sees it during one tick: its id,
   * whether the proximity query keeps it (`close`), whether the forward ray
   * hits its bounds (`hit`) and at which distance, and the road and lane it is on.
   */
  datatype Sighting = Sighting(vehicleId: int, close: bool, hit: bool, distance: real, roadId: int, laneId: int)

  /** Accelerate by one step, never past the top speed. */
  function FreeRoadSpeed(speed: real, acceleration: real, maxSpeed: real): (r: real)
    ensures r <= maxSpeed && r <= speed + acceleration
    ensures r == speed + acceleration || r == maxSpeed
  {
    if speed + acceleration > maxSpeed then maxSpeed else speed + acceleration
  }

  /** The vehicles worth ray-casting against, in list order: close ones other than itself. */
  function Nearby(all: seq<Sighting>, selfId: int): (c: seq<Sighting>)
    ensures |c| <= |all|
    ensures forall s :: s in c <==> s in all && s.vehicleId != selfId && s.close
  {
    if all == [] then []
    else
      var rest := Nearby(all[1..], selfId);
      if all[0].vehicleId != selfId && all[0].close then [all[0]] + rest else rest
  }

  /**
   * A sighting that slows the vehicle down: the ray hits it, and it is not on
   * the same road in another lane.
   */
  predicate Blocks(s: Sighting, roadId: int, laneId: int)
  {
    s.hit && !(s.roadId == roadId && s.laneId != laneId)
  }

  /** Index of the first blocking sighting, or `|c|` when none blocks. */
  function FirstBlocker(c: seq<Sighting>, roadId: int, laneId: int): (k: nat)
    ensures k <= |c|
    ensures k < |c| ==> Blocks(c[k], roadId, laneId)
    ensures forall j :: 0 <= j < k ==> !Blocks(c[j], roadId, laneId)
  {
    if c == [] then 0
    else if Blocks(c[0], roadId, laneId) then 0
    else 1 + FirstBlocker(c[1..], roadId, laneId)
  }

  /**
   * The throttled speed: the free-road speed times the gap in front of the
   * vehicle as a fraction of the ray length. Not clamped. It is zero exactly
   * when the hit touches the vehicle's front (or the free-road speed is zero).
   */
  function Throttle(free: real, distance: real, halfLength: real, far: real): (r: real)
    requires far != 0.0
    ensures r == 0.0 <==> free == 0.0 || distance == halfLength
  {
    var ratio := (distance - halfLength) / far;
    assert ratio == 0.0 <==> distance == halfLength;
    free * ratio
  }

  /** A hit between the vehicle's front and the end of its ray never speeds it up. */
  lemma ThrottleNeverSpeedsUp(free: real, distance: real, halfLength: real, far: real)
    requires 0.0 <= free && 0.0 <= halfLength <= distance <= far
    requires far == halfLength + 0.7
    ensures 0.0 <= Throttle(free, distance, halfLength, far) <= free
  {
    var ratio := (distance - halfLength) / far;
    assert 0.0 <= ratio <= 1.0;
    assert free * ratio <= free * 1.0;
  }

  /** A hit closer than the vehicle's own front makes the speed negative. */
  lemma ThrottleReversesOnOverlap(free: real, distance: real, halfLength: real, far: real)
    requires 0.0 < free && distance < halfLength && 0.0 < far
    ensures Throttle(free, distance, halfLength, far) < 0.0
  {
    var ratio := (distance - halfLength) / far;
    assert ratio < 0.0;
  }

  /** Once a blocker is found, sightings further down the list make no difference. */
  lemma {:induction false} FirstBlockerIgnoresLater(c: seq<Sighting>, later: seq<Sighting>, roadId: int, laneId: int)
    requires FirstBlocker(c, roadId, laneId) < |c|
    ensures FirstBlocker(c + later, roadId, laneId) == FirstBlocker(c, roadId, laneId)
  {
    if !Blocks(c[0], roadId, laneId) {
      assert (c + later)[1..] == c[1..] + later;
      FirstBlockerIgnoresLater(c[1..], later, roadId, laneId);
    }
  }

  /**
   * The speed `checkVehicleCollisions` leaves, as a function of its inputs:
   * the free-road speed, or that speed throttled by the distance of a hit
   * sighting of another vehicle; with no hit at all, the free-road speed.
   */
  function SpeedAfterCheck(speed: real, acceleration: real, maxSpeed: real, all: seq<Sighting>,
                           selfId: int, roadId: int, laneId: int, halfLength: real, far: real): (r: real)
    requires far != 0.0
    ensures (forall s :: s in all ==> !s.hit) ==> r == FreeRoadSpeed(speed, acceleration, maxSpeed)
    ensures r == FreeRoadSpeed(speed, acceleration, maxSpeed) ||
            exists s :: s in all && s.hit && s.vehicleId != selfId &&
                        r == Throttle(FreeRoadSpeed(speed, acceleration, maxSpeed), s.distance, halfLength, far)
  {
    var free := FreeRoadSpeed(speed, acceleration, maxSpeed);
    var c := Nearby(all, selfId);
    var k := FirstBlocker(c, roadId, laneId);
    if k < |c| && c[k].distance != MaxValue then Throttle(free, c[k].distance, halfLength, far) else free
  }

  /**
   * With a non-negative starting speed, acceleration and top speed, the
   * vehicle ends the check between 0 and its top speed, as long as any hit
   * lies between its front and the end of its ray; with no blocker it keeps
   * the free-road speed.
   */
  lemma {:induction false} CheckedSpeedBounded(speed: real, acceleration: real, maxSpeed: real, all: seq<Sighting>,
                                               selfId: int, roadId: int, laneId: int, halfLength: real, far: real)
    requires 0.0 <= halfLength && far == halfLength + 0.7
    requires 0.0 <= speed && 0.0 <= acceleration && 0.0 <= maxSpeed
    requires forall s :: s in all && s.hit ==> halfLength <= s.distance <= far
    ensures 0.0 <= SpeedAfterCheck(speed, acceleration, maxSpeed, all, selfId, roadId, laneId, halfLength, far) <= maxSpeed
    ensures FirstBlocker(Nearby(all, selfId), roadId, laneId) == |Nearby(all, selfId)| ==>
              SpeedAfterCheck(speed, acceleration, maxSpeed, all, selfId, roadId, laneId, halfLength, far)
                == FreeRoadSpeed(speed, acceleration, maxSpeed)
  {
    var free := FreeRoadSpeed(speed, acceleration, maxSpeed);
    var c := Nearby(all, selfId);
    var k := FirstBlocker(c, roadId, laneId);
    if k < |c| && c[k].distance != MaxValue {
      assert c[k] in all;
      ThrottleNeverSpeedsUp(free, c[k].distance, halfLength, far);
    }
  }

  /**
   * A sighting that decides the check: another vehicle, kept by the proximity
   * query, and blocking.
   */
  predicate Qualifies(s: Sighting, selfId: int, roadId: int, laneId: int)
  {
    s.vehicleId != selfId && s.close && Blocks(s, roadId, laneId)
  }

  /** The first blocker among the nearby vehicles is the first qualifying sighting of the whole list. */
  lemma {:induction false} FirstQualifyingIsFirstBlocker(all: seq<Sighting>, selfId: int, roadId: int, laneId: int, k: nat)
    requires k < |all| && Qualifies(all[k], selfId, roadId, laneId)
    requires forall j :: 0 <= j < k ==> !Qualifies(all[j], selfId, roadId, laneId)
    ensures FirstBlocker(Nearby(all, selfId), roadId, laneId) < |Nearby(all, selfId)|
    ensures Nearby(all, selfId)[FirstBlocker(Nearby(all, selfId), roadId, laneId)] == all[k]
  {
    if k > 0 {
      FirstQualifyingIsFirstBlocker(all[1..], selfId, roadId, laneId, k - 1);
    }
  }

  /**
   * The first qualifying sighting in list order fixes the speed: the free-road
   * speed throttled by its distance, or the free-road speed when that distance
   * is the "nothing hit" sentinel.
   */
  lemma FirstQualifyingSetsSpeed(speed: real, acceleration: real, maxSpeed: real, all: seq<Sighting>,
                                 selfId: int, roadId: int, laneId: int, halfLength: real, far: real, k: nat)
    requires far != 0.0
    requires k < |all| && Qualifies(all[k], selfId, roadId, laneId)
    requires forall j :: 0 <= j < k ==> !Qualifies(all[j], selfId, roadId, laneId)
    ensures SpeedAfterCheck(speed, acceleration, maxSpeed, all, selfId, roadId, laneId, halfLength, far) ==
              if all[k].distance != MaxValue
              then Throttle(FreeRoadSpeed(speed, acceleration, maxSpeed), all[k].distance, halfLength, far)
              else FreeRoadSpeed(speed, acceleration, maxSpeed)
  {
    FirstQualifyingIsFirstBlocker(all, selfId, roadId, laneId, k);
  }

  /** When no sighting qualifies, the vehicle keeps the free-road speed, whatever the distances. */
  lemma NoQualifyingKeepsFree(speed: real, acceleration: real, maxSpeed: real, all: seq<Sighting>,
                              selfId: int, roadId: int, laneId: int, halfLength: real, far: real)
    requires far != 0.0
    requires forall j :: 0 <= j < |all| ==> !Qualifies(all[j], selfId, roadId, laneId)
    ensures SpeedAfterCheck(speed, acceleration, maxSpeed, all, selfId, roadId, laneId, halfLength, far) ==
              FreeRoadSpeed(speed, acceleration, maxSpeed)
  {
  }
}
