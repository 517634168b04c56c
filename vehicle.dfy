/**
 * The navigation state machine of one vehicle: a queue of waypoints taken
 * from the current lane, handed over to a lane of the next road when it runs
 * out, either along a fixed route or by roaming to a neighbour.
 */
module VehicleModel {
  import opened Wrappers
  import opened RoadGraph
  import opened Speed

  /** The navigation part of a vehicle: road, lane, remaining route, waypoint queue. */
  datatype Nav = Nav(road: RoadIdx, lane: Lane, route: seq<RoadIdx>, queue: seq<Point>)

  /** A route is absent, or has at least two roads of the arena and starts at the current road. */
  ghost predicate RouteOk(w: World, road: RoadIdx, route: seq<RoadIdx>)
  {
    route == [] ||
    (|route| >= 2 && route[0] == road && forall i :: 0 <= i < |route| ==> route[i] < |w.roads|)
  }

  /** The vehicle is on a road of a valid network, in one of that road's lanes. */
  ghost predicate OnRoad(w: World, n: Nav)
  {
    WorldValid(w) && n.road < |w.roads| && n.lane in w.roads[n.road].lanes && RouteOk(w, n.road, n.route)
  }

  /** The queue is a non-empty tail of the current lane's waypoints. */
  predicate Loaded(n: Nav)
  {
    1 <= |n.queue| <= |n.lane.waypoints| &&
    n.queue == n.lane.waypoints[|n.lane.waypoints| - |n.queue|..]
  }

  /** Loaded, and the lane's first waypoint is already behind the vehicle. */
  predicate Underway(n: Nav)
  {
    Loaded(n) && |n.queue| < |n.lane.waypoints|
  }

  /** `route.findIndex(r => r.id === id)`: the first position of a road with that id, or -1. */
  function FindIndex(w: World, route: seq<RoadIdx>, id: int): (i: int)
    requires forall k :: 0 <= k < |route| ==> route[k] < |w.roads|
    ensures -1 <= i < |route|
    ensures i == -1 <==> forall k :: 0 <= k < |route| ==> w.roads[route[k]].id != id
    ensures 0 <= i ==> w.roads[route[i]].id == id && forall k :: 0 <= k < i ==> w.roads[route[k]].id != id
  {
    if route == [] then -1
    else if w.roads[route[0]].id == id then 0
    else
      var j := FindIndex(w, route[1..], id);
      if j == -1 then -1 else j + 1
  }

  /** Drop the waypoint just reached. */
  function Shift(n: Nav): (r: Nav)
    requires |n.queue| >= 1
    ensures r.road == n.road && r.lane == n.lane && r.route == n.route
    ensures |r.queue| == |n.queue| - 1
    ensures Loaded(n) && |n.queue| >= 2 ==> Underway(r)
  {
    var m := |n.lane.waypoints|;
    assert Loaded(n) ==> n.queue[1..] == n.lane.waypoints[m - |n.queue| + 1..];
    n.(queue := n.queue[1..])
  }

  /**
   * Hand-over along the route at the end of a lane: move to the next road of
   * the route, on the lane joining the road just left to the road after that
   * one (or to the next road itself when it is the last), with that lane's
   * waypoints loaded; drop the road just left, and the whole route once a
   * single road would remain.
   */
  function RouteHandOver(w: World, n: Nav): (r: Nav)
    requires OnRoad(w, n) && n.route != []
    ensures OnRoad(w, r) && Loaded(r) && r.queue == r.lane.waypoints
    ensures r.road == n.route[1] && |r.route| < |n.route|
  {
    var next := n.route[1];
    var to := if 2 < |n.route| then n.route[2] else next;
    var lane := w.roads[next].lanes[w.connectingLane(next, n.road, to)];
    Nav(next, lane, if |n.route| == 2 then [] else n.route[1..], lane.waypoints)
  }

  /** The lanes a roaming vehicle may continue on: those of the road its lane leads to, entered from its road. */
  function RoamCandidates(w: World, n: Nav): (r: seq<Lane>)
    requires OnRoad(w, n)
    ensures var next := w.roads[n.road].neighbours[n.lane.toRoadIdx];
            next < |w.roads| && |r| <= |w.roads[next].lanes| &&
            forall l :: l in r <==> l in w.roads[next].lanes && EntersFrom(w, next, l, w.roads[n.road].id)
  {
    IncomingLanes(w, w.roads[n.road].neighbours[n.lane.toRoadIdx], w.roads[n.road].id)
  }

  /**
   * Hand-over while roaming: move to the road at the current lane's exit
   * port, on candidate `pick` of the lanes entered from the road just left.
   */
  function RoamHandOver(w: World, n: Nav, pick: nat): (r: Nav)
    requires OnRoad(w, n) && n.route == []
    requires pick < |RoamCandidates(w, n)|
    ensures OnRoad(w, r) && Loaded(r) && r.queue == r.lane.waypoints && r.route == []
    ensures r.road == w.roads[n.road].neighbours[n.lane.toRoadIdx]
    ensures EntersFrom(w, r.road, r.lane, w.roads[n.road].id)
  {
    var next := w.roads[n.road].neighbours[n.lane.toRoadIdx];
    var lane := RoamCandidates(w, n)[pick];
    Nav(next, lane, n.route, lane.waypoints)
  }

  /**
   * What reaching the next waypoint does: with more than one waypoint queued,
   * drop the head; with one left, hand over to the next lane (along the route
   * while there is one, roaming otherwise) and drop that lane's first point.
   */
  function Advance(w: World, n: Nav, pick: nat): (r: Nav)
    requires OnRoad(w, n) && Loaded(n)
    requires |n.queue| == 1 && n.route == [] ==> pick < |RoamCandidates(w, n)|
    ensures OnRoad(w, r) && Underway(r)
  {
    if |n.queue| > 1 then
      Shift(n)
    else if n.route != [] then
      var h := RouteHandOver(w, n);
      Shift(h)
    else
      var h := RoamHandOver(w, n, pick);
      Shift(h)
  }

  /** Reaching a waypoint that is not the lane's last removes exactly that waypoint. */
  lemma AdvanceWithinLane(w: World, n: Nav, pick: nat)
    requires OnRoad(w, n) && Loaded(n) && |n.queue| > 1
    ensures var r := Advance(w, n, pick);
            r.road == n.road && r.lane == n.lane && r.route == n.route && r.queue == n.queue[1..]
  {
  }

  /**
   * Reaching the lane's last waypoint loads the next lane minus its first
   * point: along the route, which gets shorter, or else onto a lane entered
   * from the road just left.
   */
  lemma AdvanceAtLaneEnd(w: World, n: Nav, pick: nat)
    requires OnRoad(w, n) && Loaded(n) && |n.queue| == 1
    requires n.route == [] ==> pick < |RoamCandidates(w, n)|
    ensures var r := Advance(w, n, pick);
            r.queue == r.lane.waypoints[1..] &&
            (n.route != [] ==> |r.route| < |n.route|) &&
            (n.route == [] ==> r.route == [] && EntersFrom(w, r.road, r.lane, w.roads[n.road].id))
  {
  }

  /** `k` lane ends in a row along the route. */
  function RouteTransitions(w: World, n: Nav, k: nat): (r: Nav)
    requires OnRoad(w, n)
    requires k <= if n.route == [] then 0 else |n.route| - 1
    ensures OnRoad(w, r)
    decreases k
  {
    if k == 0 then n else RouteTransitions(w, RouteHandOver(w, n), k - 1)
  }

  /**
   * Along a route of n roads, the k-th lane end puts the vehicle on the k-th
   * road with the route's first k roads gone; the route is cleared at the
   * (n-1)-th, on the last road.
   */
  lemma {:induction false} RouteRunsOut(w: World, n: Nav, k: nat)
    requires OnRoad(w, n) && n.route != [] && k <= |n.route| - 1
    decreases k
    ensures RouteTransitions(w, n, k).road == n.route[k]
    ensures k < |n.route| - 1 ==> RouteTransitions(w, n, k).route == n.route[k..]
    ensures k == |n.route| - 1 ==> RouteTransitions(w, n, k).route == []
  {
    if k > 0 {
      var h := RouteHandOver(w, n);
      assert h.road == n.route[1];
      assert RouteTransitions(w, n, k) == RouteTransitions(w, h, k - 1);
      if |n.route| > 2 {
        assert h.route == n.route[1..];
        RouteRunsOut(w, h, k - 1);
        assert h.route[k - 1..] == n.route[k..];
      } else {
        assert h.route == [];
      }
    }
  }

  /**
   * Along a route, the lane taken at the k-th lane end is the lane of road k
   * that the road lookup names for coming from road k-1 and going on to road
   * k+1, or to road k itself when it is the last.
   */
  lemma {:induction false} RouteLaneChoice(w: World, n: Nav, k: nat)
    requires OnRoad(w, n) && n.route != [] && 1 <= k <= |n.route| - 1
    decreases k
    ensures RouteTransitions(w, n, k).lane ==
              w.roads[n.route[k]].lanes[w.connectingLane(n.route[k], n.route[k - 1],
                                                         if k + 1 < |n.route| then n.route[k + 1] else n.route[k])]
  {
    var h := RouteHandOver(w, n);
    assert RouteTransitions(w, n, k) == RouteTransitions(w, h, k - 1);
    if k > 1 {
      assert h.route == n.route[1..];
      RouteLaneChoice(w, h, k - 1);
    }
  }

  class Vehicle {
    const id: int
    /** Half the length of the vehicle's bounding box. */
    const halfLength: real
    /** Length of the forward ray (`raycaster.far`). */
    const far: real
    var position: Point
    var maxSpeed: real
    var actualSpeed: real
    var acceleration: real
    var currentRoad: Option<RoadIdx>
    var currentLane: Option<Lane>
    var route: seq<RoadIdx>
    var routeWaypoints: seq<Point>
    var nextWaypoint: Option<Point>

    /** Not yet given a road. */
    predicate Unseeded()
      reads this
    {
      currentRoad.None? && currentLane.None? && route == [] && routeWaypoints == [] && nextWaypoint.None?
    }

    /** The vehicle's navigation fields as a `Nav`. */
    function State(): Nav
      reads this
      requires currentRoad.Some? && currentLane.Some?
    {
      Nav(currentRoad.value, currentLane.value, route, routeWaypoints)
    }

    ghost predicate Placed(w: World)
      reads this
    {
      currentRoad.Some? && currentLane.Some? && OnRoad(w, State())
    }

    /** Driving towards the head of a non-empty waypoint queue. */
    ghost predicate Navigating(w: World)
      reads this
    {
      Placed(w) && Underway(State()) && nextWaypoint == Some(routeWaypoints[0])
    }

    ghost predicate Valid(w: World)
      reads this
    {
      WorldValid(w) && 0.0 <= halfLength && far == halfLength + 0.7 &&
      (Unseeded() || Navigating(w))
    }

    /** A new vehicle whose model is `depth` long and stands at `position`. */
    constructor (id: int, depth: real, position: Point)
      requires 0.0 <= depth
      ensures this.id == id && halfLength == depth * 0.5 && far == halfLength + 0.7
      ensures this.position == position
      ensures maxSpeed == 2.0 && actualSpeed == 2.0 && acceleration == 0.01
      ensures Unseeded()
    {
      this.id := id;
      halfLength := depth * 0.5;
      far := depth * 0.5 + 0.7;
      this.position := position;
      maxSpeed := 2.0;
      actualSpeed := 2.0;
      acceleration := 0.01;
      currentRoad := None;
      currentLane := None;
      route := [];
      routeWaypoints := [];
      nextWaypoint := None;
    }

    method SetSpeed(speed: real)
      modifies this`maxSpeed, this`actualSpeed
      ensures maxSpeed == speed && actualSpeed == speed
    {
      maxSpeed := speed;
      actualSpeed := speed;
    }

    /** Start roaming from `road`, on its lane number `rnd`. */
    method SetRoam(w: World, road: RoadIdx, rnd: nat)
      requires Valid(w) && route == []
      requires road < |w.roads| && rnd < |w.roads[road].lanes|
      modifies this`position, this`currentRoad, this`currentLane, this`route, this`routeWaypoints, this`nextWaypoint
      ensures Valid(w) && Navigating(w)
      ensures State() == Nav(road, w.roads[road].lanes[rnd], [], w.roads[road].lanes[rnd].waypoints[1..])
      ensures nextWaypoint == Some(w.roads[road].lanes[rnd].waypoints[1])
      ensures position == old(position).(x := w.roads[road].lanes[rnd].waypoints[0].x,
                                         z := w.roads[road].lanes[rnd].waypoints[0].z)
    {
      currentRoad := Some(road);
      currentLane := Some(w.roads[road].lanes[rnd]);
      routeWaypoints := currentLane.value.waypoints;
      position := position.(x := routeWaypoints[0].x, z := routeWaypoints[0].z);
      TargetNextWaypoint(w, 0);
    }

    /** Follow `newRoute`, starting on its first road. */
    method SetRoute(w: World, newRoute: seq<RoadIdx>)
      requires Valid(w)
      requires |newRoute| >= 2 && forall i :: 0 <= i < |newRoute| ==> newRoute[i] < |w.roads|
      modifies this`position, this`currentRoad, this`currentLane, this`route, this`routeWaypoints, this`nextWaypoint
      ensures Valid(w) && Navigating(w)
      ensures var lane := w.roads[newRoute[0]].lanes[w.connectingLane(newRoute[0], newRoute[0], newRoute[1])];
              State() == Nav(newRoute[0], lane, newRoute, lane.waypoints[1..]) &&
              nextWaypoint == Some(lane.waypoints[1]) &&
              position == old(position).(x := lane.waypoints[0].x, z := lane.waypoints[0].z)
    {
      route := newRoute;
      var first := newRoute[0];
      var second := newRoute[1];
      var lane := w.roads[first].lanes[w.connectingLane(first, first, second)];
      currentRoad := Some(first);
      currentLane := Some(lane);
      routeWaypoints := lane.waypoints;
      position := position.(x := routeWaypoints[0].x, z := routeWaypoints[0].z);
      ghost var seeded := State();
      assert RouteOk(w, first, newRoute);
      assert OnRoad(w, seeded) && Loaded(seeded) && |seeded.queue| >= 2;
      TargetNextWaypoint(w, 0);
      assert State() == Advance(w, seeded, 0);
    }

    /**
     * Accelerate, then throttle to the first blocking vehicle in `all`. The
     * proximity query and the ray casts are given as the `close`, `hit` and
     * `distance` of each sighting. The vehicle's own road and lane are read
     * only once a sighting is hit, so a vehicle not yet on a road may be
     * checked as long as its ray hits nothing.
     */
    method CheckVehicleCollisions(w: World, all: seq<Sighting>)
      requires Valid(w)
      requires Navigating(w) || forall s :: s in Nearby(all, id) ==> !s.hit
      modifies this`actualSpeed
      ensures old(Navigating(w)) ==>
                actualSpeed == SpeedAfterCheck(old(actualSpeed), acceleration, maxSpeed, all, id,
                                               w.roads[currentRoad.value].id, currentLane.value.id, halfLength, far)
      ensures !old(Navigating(w)) ==> actualSpeed == FreeRoadSpeed(old(actualSpeed), acceleration, maxSpeed)
    {
      ghost var nav := Navigating(w);
      ghost var roadId := if nav then w.roads[currentRoad.value].id else 0;
      ghost var laneId := if nav then currentLane.value.id else 0;
      ghost var expected := SpeedAfterCheck(actualSpeed, acceleration, maxSpeed, all, id, roadId, laneId, halfLength, far);
      assert !nav ==> expected == FreeRoadSpeed(actualSpeed, acceleration, maxSpeed);
      actualSpeed := actualSpeed + acceleration;
      if actualSpeed > maxSpeed {
        actualSpeed := maxSpeed;
      }
      ghost var free := actualSpeed;

      var closeVehicles := Nearby(all, id);
      if |closeVehicles| == 0 {
        assert actualSpeed == expected;
        return;
      }

      var distance := MaxValue;
      ghost var first := FirstBlocker(closeVehicles, roadId, laneId);
      ghost var stop := |closeVehicles|;
      for i := 0 to |closeVehicles|
        invariant distance == MaxValue && stop == |closeVehicles|
        invariant i <= first
      {
        var vehicle := closeVehicles[i];
        if !vehicle.hit {
          continue;
        }
        assert vehicle in closeVehicles;
        assert nav;
        if vehicle.roadId == w.roads[currentRoad.value].id && vehicle.laneId != currentLane.value.id {
          continue;
        }
        distance := vehicle.distance;
        stop := i;
        break;
      }
      assert stop == first;
      assert stop < |closeVehicles| ==> distance == closeVehicles[stop].distance;

      if distance == MaxValue {
        assert actualSpeed == expected;
        return;
      }
      assert expected == Throttle(free, distance, halfLength, far);
      var outsideDistance := distance - halfLength;
      var relativeDistance := outsideDistance / far;
      actualSpeed := actualSpeed * relativeDistance;
    }

    /** Move on from the waypoint just reached; `pick` is the random lane index used when roaming. */
    method TargetNextWaypoint(w: World, pick: nat)
      requires Placed(w) && Loaded(State())
      requires |routeWaypoints| == 1 && route == [] ==> pick < |RoamCandidates(w, State())|
      modifies this`currentRoad, this`currentLane, this`route, this`routeWaypoints, this`nextWaypoint
      ensures Navigating(w)
      ensures State() == Advance(w, old(State()), pick)
      decreases if |routeWaypoints| == 1 then 3 else 0
    {
      if |routeWaypoints| == 1 {
        OnWaypointsEnd(w, pick);
        return;
      }
      routeWaypoints := routeWaypoints[1..];
      nextWaypoint := Some(routeWaypoints[0]);
    }

    /** The lane is used up: hand over along the route, or roam. */
    method OnWaypointsEnd(w: World, pick: nat)
      requires Placed(w) && Loaded(State()) && |routeWaypoints| == 1
      requires route == [] ==> pick < |RoamCandidates(w, State())|
      modifies this`currentRoad, this`currentLane, this`route, this`routeWaypoints, this`nextWaypoint
      ensures Navigating(w)
      ensures State() == Advance(w, old(State()), pick)
      decreases 2
    {
      routeWaypoints := [];
      if route != [] {
        NextRouteRoad(w, pick);
      } else {
        NextRoamRoad(w, pick);
      }
    }

    method NextRouteRoad(w: World, pick: nat)
      requires Placed(w) && route != []
      modifies this`currentRoad, this`currentLane, this`route, this`routeWaypoints, this`nextWaypoint
      ensures Navigating(w)
      ensures State() == Shift(RouteHandOver(w, old(State())))
      decreases 1
    {
      var fromRoad := currentRoad.value;
      var nextIdx := FindIndex(w, route, w.roads[fromRoad].id) + 1;
      var toRoad := if nextIdx + 1 < |route| then route[nextIdx + 1] else route[nextIdx];
      var nextRoad := route[nextIdx];
      var lane := w.roads[nextRoad].lanes[w.connectingLane(nextRoad, fromRoad, toRoad)];
      currentRoad := Some(nextRoad);
      currentLane := Some(lane);
      routeWaypoints := lane.waypoints;
      route := route[1..];
      if |route| == 1 {
        route := [];
      }
      TargetNextWaypoint(w, pick);
    }

    method NextRoamRoad(w: World, pick: nat)
      requires Placed(w) && route == []
      requires pick < |RoamCandidates(w, State())|
      modifies this`currentRoad, this`currentLane, this`route, this`routeWaypoints, this`nextWaypoint
      ensures Navigating(w)
      ensures State() == Shift(RoamHandOver(w, old(State()), pick))
      decreases 1
    {
      var toRoadIdx := currentLane.value.toRoadIdx;
      var nextRoad := w.roads[currentRoad.value].neighbours[toRoadIdx];
      var lanes := IncomingLanes(w, nextRoad, w.roads[currentRoad.value].id);
      var nextLane := lanes[pick];
      LaneOfRoad(w, nextRoad, nextLane);
      currentRoad := Some(nextRoad);
      currentLane := Some(nextLane);
      routeWaypoints := nextLane.waypoints;
      TargetNextWaypoint(w, pick);
    }

    /**
     * The discrete part of a tick: nothing without a queue and a target;
     * otherwise, when the target is `reached`, advance once. The movement
     * towards the target is not part of this model.
     */
    method Drive(w: World, reached: bool, pick: nat)
      requires Valid(w)
      requires reached && Navigating(w) && |routeWaypoints| == 1 && route == [] ==>
                 pick < |RoamCandidates(w, State())|
      modifies this`currentRoad, this`currentLane, this`route, this`routeWaypoints, this`nextWaypoint
      ensures Valid(w) && (old(Navigating(w)) ==> Navigating(w))
      ensures old(routeWaypoints) == [] || old(nextWaypoint).None? || !reached ==> unchanged(this)
      ensures reached && old(Navigating(w)) ==> State() == Advance(w, old(State()), pick)
    {
      if routeWaypoints == [] || nextWaypoint.None? {
        return;
      }
      if reached {
        TargetNextWaypoint(w, pick);
      }
    }
  }
}
