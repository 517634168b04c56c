# Vehicle navigation in traffic-scene, modelled in Dafny

This project models the per-vehicle logic of `Vehicle` in the traffic-scene
simulation. A car drives through a network of road pieces. Each road has
numbered ports, one per neighbouring road, and a set of lanes. Each lane joins
two ports and carries the waypoints the car follows. The model covers two parts.

- **Navigation.** The car keeps a queue of waypoints copied from its current
  lane and targets the head of the queue. When the queue is down to its last
  point, the car hands over to a lane of the next road. Routed cars take the
  next road of their route. Roaming cars take the road at their lane's exit
  port and a lane of that road that is entered from the road they are leaving.
- **Speed.** On each tick the car accelerates up to its top speed. It then
  scales that speed by how far ahead the first vehicle is that its forward ray
  hits. Vehicles on the same road in another lane are ignored.

Files:

- `wrappers.dfy` (module `Wrappers`): `Option`, standing for fields that may be
  `undefined`.
- `road_graph.dfy` (module `RoadGraph`): points, lanes, roads and the `World`
  arena. `WorldValid` is the well-formedness the vehicle relies on. The roam
  lane filter is `LanesFrom` and `IncomingLanes`.
- `speed.dfy` (module `Speed`): free-road acceleration, the choice of the
  blocking vehicle, and the throttle. `SpeedAfterCheck` gives the whole speed
  update as one function.
- `vehicle.dfy` (module `VehicleModel`): the class `Vehicle`. Its fields are
  the source's fields: `currentRoad`, `currentLane`, `route`,
  `routeWaypoints`, `nextWaypoint`, the speeds and the position. Its methods
  are proved against pure functions on a `Nav` value: `Advance` for "waypoint
  reached", `RouteHandOver` for the routed hand-over and `RoamHandOver` for
  the roaming one. `Navigating` is the invariant every method keeps:
  - the queue is a non-empty tail of the current lane, and the lane's first
    point is already passed;
  - `nextWaypoint` is the head of the queue;
  - the lane belongs to the current road;
  - the route is either empty, or holds at least two roads and starts at the
    current road.

Abstractions:

- Roads live in an arena and refer to each other by index. Road and lane ids
  are kept, because the source compares ids.
- `Road.getConnectingLane` is not part of this model. The world carries it as
  the function `connectingLane(road, from, to)`, which is only required to
  return one of the road's own lanes.
- The random choices are arguments. One is the lane index in `setRoam`. The
  other is the candidate index of `NumberUtils.getRandomArrayIndex` when
  roaming (`pick`); it must be in range.
- The waypoint test of `NumberUtils.vectorsEqual` is the `reached` argument of
  `Drive`.
- For `checkVehicleCollisions`, each other vehicle arrives as a `Sighting`
  with these fields:
  - its id;
  - whether `RoadUtils.getCloseVehicles` keeps it (`close`; the query is taken
    to keep list order);
  - whether the ray hits it (`hit`), and at what distance (`distance`);
  - its road id and lane id.
- Doubles are exact `real`s. `Number.MAX_VALUE`, the "no hit" sentinel, is
  its exact value.

Behaviour worth knowing:

- The throttle ratio is not clamped, so a hit closer than the car's own front
  gives a negative speed (`ThrottleReversesOnOverlap`).
- The first qualifying hit in list order is taken, not the nearest one.
- Acceleration is added once per check, with no time step.
- `setRoute` asks the first road for the lane from itself to the second road.

## Model

| member | source | states |
|---|---|---|
| `RoadGraph.LanesFrom` | src/model/Vehicle.ts:298-300 | keeps exactly those lanes whose entry port's neighbour has the given id, and no more lanes than it was given |
| `RoadGraph.IncomingLanes` | src/model/Vehicle.ts:298-300 | a lane is a candidate iff it is a lane of the next road whose `neighbours[fromRoadIdx]` has the previous road's id |
| `Speed.FreeRoadSpeed` | src/model/Vehicle.ts:122-126 | the accelerated speed is the smaller of `speed + acceleration` and `maxSpeed`, so it never exceeds `maxSpeed` |
| `Speed.Nearby` | src/model/Vehicle.ts:129-134 | a vehicle is considered iff it is not the vehicle itself (by id) and the proximity query keeps it |
| `Speed.FirstBlocker` | src/model/Vehicle.ts:141-163 | returns the first index whose sighting is hit by the ray and is not on the same road in another lane; every earlier sighting is skipped; `|c|` when none qualifies |
| `Speed.FirstBlockerIgnoresLater` | src/model/Vehicle.ts:159-162 | once a blocker is found, appending further sightings does not change the choice, because the loop breaks |
| `Speed.ThrottleNeverSpeedsUp` | src/model/Vehicle.ts:172-179 | with `far = halfLength + 0.7`, `halfLength >= 0` and a hit between the car's front and the end of the ray, the throttled speed lies in `[0, free]` |
| `Speed.ThrottleReversesOnOverlap` | src/model/Vehicle.ts:172-179 | a hit closer than `halfLength` turns a positive speed negative, since the ratio is not clamped |
| `Speed.Throttle` | src/model/Vehicle.ts:172-179 | the throttled speed is zero exactly when the free-road speed is zero or the hit touches the car's front (`distance == halfLength`) |
| `Speed.SpeedAfterCheck` | src/model/Vehicle.ts:121-179 | the speed after the check is the free-road speed, or that speed throttled by the distance of some hit sighting of another vehicle; with no hit at all it is the free-road speed |
| `Speed.FirstQualifyingIsFirstBlocker` | src/model/Vehicle.ts:128-163 | the first blocker among the nearby vehicles is the first sighting of the whole list that is another vehicle, kept by the proximity query, and blocking, so filtering keeps the list order that decides the choice |
| `Speed.FirstQualifyingSetsSpeed` | src/model/Vehicle.ts:121-179 | the first such qualifying sighting in list order fixes the speed: the free-road speed throttled by its distance, or the free-road speed when its distance is `Number.MAX_VALUE` |
| `Speed.NoQualifyingKeepsFree` | src/model/Vehicle.ts:121-168 | when no sighting qualifies, the speed after the check is the free-road speed, whatever is hit on other lanes or by the vehicle itself |
| `Speed.CheckedSpeedBounded` | src/model/Vehicle.ts:121-179 | for a starting speed, acceleration and top speed that are all non-negative, and every hit lying between the car's front and the end of its ray (`halfLength <= distance <= far`), the speed after the check lies in `[0, maxSpeed]`; with no blocker it is exactly the free-road speed |
| `VehicleModel.FindIndex` | src/model/Vehicle.ts:269 | returns the first route position holding a road with the given id, or -1 iff there is none |
| `VehicleModel.Shift` | src/model/Vehicle.ts:226-227 | dropping the head of the queue keeps road, lane and route and shortens the queue by one; on a loaded queue of two or more points the car stays underway on its lane |
| `VehicleModel.RouteHandOver` | src/model/Vehicle.ts:264-288 | the routed hand-over moves the car to the route's second road and keeps it on a road and lane of the network, with a valid route that starts at the new road; it loads the new lane's full waypoint list, and the route gets strictly shorter |
| `VehicleModel.RoamCandidates` | src/model/Vehicle.ts:294-300 | the road at the lane's exit port is in the network, and a lane is a candidate iff it is a lane of that road entered from the current road |
| `VehicleModel.RoamHandOver` | src/model/Vehicle.ts:293-311 | the roaming hand-over goes to `neighbours[toRoadIdx]` of the current road, onto a lane of that road entered from the road just left; it loads that lane's waypoints |
| `VehicleModel.Advance` | src/model/Vehicle.ts:218-230 | reaching a waypoint keeps the car on a road and lane of the network, with a valid route and a queue that is a non-empty proper tail of its lane, so the next target always exists |
| `VehicleModel.AdvanceWithinLane` | src/model/Vehicle.ts:226-230 | with more than one waypoint queued, exactly the head is removed; road, lane and route are unchanged |
| `VehicleModel.AdvanceAtLaneEnd` | src/model/Vehicle.ts:251-314 | with one waypoint left, the queue becomes the new lane's waypoints minus their first. A set route gets shorter; without one, the car takes a lane entered from the road it left, with no route |
| `VehicleModel.RouteTransitions` | src/model/Vehicle.ts:280-287 | a sequence of routed hand-overs keeps the car on a valid road, lane and route |
| `VehicleModel.RouteRunsOut` | src/model/Vehicle.ts:280-287 | along a route of n >= 2 roads, after k < n-1 lane ends the car is on road k with the route's first k roads dropped; after n-1 lane ends the route is cleared and the car is on the last road |
| `VehicleModel.RouteLaneChoice` | src/model/Vehicle.ts:268-274 | at the k-th lane end along a route, the car takes the lane of road k that the lookup gives for coming from road k-1 and going on to road k+1, or to road k itself when it is the last |
| `RoadGraph.EveryRoadHasALane` | src/model/Vehicle.ts:78-79 | every road of a valid network has at least one lane, so the random lane index of `setRoam` always names a lane |
| `VehicleModel.Vehicle.constructor` | src/model/Vehicle.ts:16-46 | a new car has top and current speed 2, acceleration 0.01, `halfLength` half the model's depth, ray length `halfLength + 0.7`, and no road, lane, route, queue or target |
| `VehicleModel.Vehicle.SetSpeed` | src/model/Vehicle.ts:60-63 | sets both the top speed and the current speed to the given value |
| `VehicleModel.Vehicle.SetRoam` | src/model/Vehicle.ts:73-93 | puts the car on the given road and lane. The queue is the lane's waypoints minus the first, the target is the second waypoint, x/z is the first waypoint, y is unchanged, and the invariant holds |
| `VehicleModel.Vehicle.SetRoute` | src/model/Vehicle.ts:96-119 | puts the car on the route's first road, on the connecting lane from that road to the second, and stores the route. The queue, target and position are as for `SetRoam` |
| `VehicleModel.Vehicle.CheckVehicleCollisions` | src/model/Vehicle.ts:121-185 | for a car on a road, the new speed is the free-road speed, or that speed times `(d - halfLength) / far` for the first blocking sighting at distance `d`; a car not yet on a road may be checked when no nearby sighting is hit, and keeps the free-road speed |
| `VehicleModel.Vehicle.TargetNextWaypoint` | src/model/Vehicle.ts:218-248 | the new navigation state is `Advance` of the old one, and the invariant (non-empty queue, target = head) is kept |
| `VehicleModel.Vehicle.OnWaypointsEnd` | src/model/Vehicle.ts:251-262 | at a lane's last point, hands over along the route when one is set and roams otherwise, with the result given by `Advance` |
| `VehicleModel.Vehicle.NextRouteRoad` | src/model/Vehicle.ts:264-291 | the new state is `RouteHandOver` of the old one with the first point of the new lane dropped; the `findIndex` lookup always lands on the route's head |
| `VehicleModel.Vehicle.NextRoamRoad` | src/model/Vehicle.ts:293-315 | the new state is `RoamHandOver` with the picked candidate, with the first point of the new lane dropped |
| `VehicleModel.Vehicle.Drive` | src/model/Vehicle.ts:317-327 | changes nothing when there is no queue or no target, or when the target is not reached; otherwise it advances exactly once, as `Advance` says, and keeps the invariant |

## Left out

- The three.js side of `Vehicle` is not modelled. This covers bounds and ray
  construction, `lookAt`, the saved and restored rotation (`nextLookAt`),
  `rotateTowards`, the route line, the ray helper, `setColor` and `update`.
  These are rendering and floating-point geometry; ray distances enter only as
  inputs.
- `Drive`: the movement step is not modelled, so the position is left as it
  was. That step normalises the direction to the target and adds
  `deltaTime * actualSpeed` times it to x and z.
- `CheckVehicleCollisions`: requires a car on a road whenever some nearby
  sighting is hit. The source reads the car's own road and lane at that point,
  and would fail on a car that has none.
- `CheckVehicleCollisions`: every vehicle the ray hits is assumed to be on a
  road and a lane, since a `Sighting` carries their ids as plain numbers. The
  source reads `currentRoad.id` and `currentLane.id` of each hit vehicle and
  would fail on one that was never given a road.
- `CheckVehicleCollisions`: `RoadUtils.getCloseVehicles` is not part of this
  model. Its verdict is an input flag per vehicle, and it is assumed to keep
  list order.
- `SetRoute`: the caller's route array is copied, not aliased. So the
  `route.shift()` calls are not seen by the caller's array in this model.
- `SetRoute`: requires a route of at least two roads. With an empty route the
  source throws at `first.getConnectingLane`, since `first` is undefined; with
  a one-road route it asks `getConnectingLane` about an undefined second road.
- `SetRoam`: requires that no route is set. A car is given a road to roam from
  only when it is spawned; a leftover route would break the route invariant.
- `Road.getConnectingLane` is not part of this model. It is abstracted as
  described above, so a wrong lane choice by it cannot be detected here.
- `NumberUtils.vectorsEqual`, `NumberUtils.getRandomArrayIndex` and
  `NumberUtils.createId` are not part of this model; they are the `reached`,
  `pick` and `id` inputs.
- A roaming hand-over with no candidate lane throws in the source. The
  candidate list being non-empty, with `pick` in range, is a precondition of
  `NextRoamRoad`, `TargetNextWaypoint` and `Drive`.
- Roads without lanes are excluded by `WorldValid`, because the connecting-lane
  lookup must answer for every road. In the source, `setRoam` on such a road
  throws, and `getConnectingLane` has no lane to return.
- Lanes with fewer than two waypoints are excluded by `WorldValid`. With such a
  lane the source would leave `nextWaypoint` undefined or hand over forever.
- Lanes whose `fromRoadIdx` or `toRoadIdx` names no port of their road are
  excluded by `WorldValid`, which requires both to name an existing
  neighbour. In the source, `nextRoamRoad` throws on them: an unconnected exit
  port leaves `nextRoad` undefined, and the candidate filter reads the entry
  port's neighbour of every lane of the next road, so one unconnected entry
  port there is enough.
- The scene builder and the scene state are not modelled. That includes the
  city layout, meshes, asset loading and the spawn loop of `addCar`.
- No route search appears in the source, so none is modelled. The order in
  which vehicles are ticked is not modelled either.
