/**
 * The road network a vehicle drives on, as an arena of immutable records.
 * Roads refer to their neighbours by arena index; a lane refers to the two
 * neighbours it joins by port number (a position in its road's `neighbours`).
 */
module RoadGraph {

  /** A world-space point (a three.js vector); only x and z are driven on. */
  datatype Point = Point(x: real, y: real, z: real)

  /** Position of a road in the arena `World.roads`. */
  type RoadIdx = nat

  /**
   * A lane of a road: entered through port `fromRoadIdx`, left through port
   * `toRoadIdx`, followed along `waypoints`.
   */
  datatype Lane = Lane(id: int, fromRoadIdx: nat, toRoadIdx: nat, waypoints: seq<Point>)

  /** A road: its id, its ports (the neighbour at each port) and its lanes. */
  datatype Road = Road(id: int, neighbours: seq<RoadIdx>, lanes: seq<Lane>)

  /**
   * The whole network. `connectingLane(road, from, to)` stands for
   * `road.getConnectingLane(from, to)`, whose body is not part of this model:
   * it gives the index, among `road`'s lanes, of the lane to take between the
   * two given roads.
   */
  datatype World = World(roads: seq<Road>, connectingLane: (RoadIdx, RoadIdx, RoadIdx) -> nat)

  /** A lane of road `r` whose ports exist and that has a start and an end point. */
  predicate LaneValid(w: World, r: RoadIdx, l: Lane)
    requires r < |w.roads|
  {
    l.fromRoadIdx < |w.roads[r].neighbours| &&
    l.toRoadIdx < |w.roads[r].neighbours| &&
    |l.waypoints| >= 2
  }

  /**
   * A network the vehicles can drive on: every port names a road of the arena,
   * every lane is valid for its road, and the connecting-lane lookup always
   * answers with one of the road's own lanes. The last clause means that every
   * road of a valid network has at least one lane (`EveryRoadHasALane`).
   */
  ghost predicate WorldValid(w: World)
  {
    (forall r: RoadIdx, i: nat :: r < |w.roads| && i < |w.roads[r].neighbours| ==>
       w.roads[r].neighbours[i] < |w.roads|) &&
    (forall r: RoadIdx, k: nat :: r < |w.roads| && k < |w.roads[r].lanes| ==> LaneValid(w, r, w.roads[r].lanes[k])) &&
    (forall r: RoadIdx, from: RoadIdx, to: RoadIdx :: r < |w.roads| ==>
       w.connectingLane(r, from, to) < |w.roads[r].lanes|)
  }

  /** A valid network has no road without lanes, since the lookup must be able to answer for every road. */
  lemma EveryRoadHasALane(w: World, r: RoadIdx)
    requires WorldValid(w) && r < |w.roads|
    ensures |w.roads[r].lanes| >= 1
  {
    assert w.connectingLane(r, r, r) < |w.roads[r].lanes|;
  }

  /** Every lane found on a road of a valid network is valid for it. */
  lemma LaneOfRoad(w: World, r: RoadIdx, l: Lane)
    requires WorldValid(w) && r < |w.roads| && l in w.roads[r].lanes
    ensures LaneValid(w, r, l)
  {
    var k :| 0 <= k < |w.roads[r].lanes| && w.roads[r].lanes[k] == l;
  }

  /** Lane `l` of `road` is entered from the road whose id is `fromId`. */
  predicate EntersFrom(w: World, road: RoadIdx, l: Lane, fromId: int)
    requires WorldValid(w) && road < |w.roads| && l in w.roads[road].lanes
  {
    w.roads[w.roads[road].neighbours[l.fromRoadIdx]].id == fromId
  }

  /** The lanes of `lanes` (all of them lanes of `road`) entered from road `fromId`. */
  function LanesFrom(w: World, road: RoadIdx, lanes: seq<Lane>, fromId: int): (r: seq<Lane>)
    requires WorldValid(w) && road < |w.roads|
    requires forall l :: l in lanes ==> l in w.roads[road].lanes
    ensures |r| <= |lanes|
    ensures forall l :: l in r ==> l in lanes && EntersFrom(w, road, l, fromId)
    ensures forall l :: l in lanes && EntersFrom(w, road, l, fromId) ==> l in r
  {
    if lanes == [] then []
    else
      var rest := LanesFrom(w, road, lanes[1..], fromId);
      if EntersFrom(w, road, lanes[0], fromId) then [lanes[0]] + rest else rest
  }

  /** `road.lanes.filter(lane => road.neighbours[lane.fromRoadIdx].id === fromId)`. */
  function IncomingLanes(w: World, road: RoadIdx, fromId: int): (r: seq<Lane>)
    requires WorldValid(w) && road < |w.roads|
    ensures forall l :: l in r <==> l in w.roads[road].lanes && EntersFrom(w, road, l, fromId)
  {
    LanesFrom(w, road, w.roads[road].lanes, fromId)
  }
}
