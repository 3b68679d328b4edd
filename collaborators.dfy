// The helpers that the junction and connecting-road generators call but whose
// code is not part of this model: generateRoad and buildRoad (reference line
// and lanes of one road), findTOffset, findMinLaneId and findMaxLaneId,
// addObjects, addSignal, fixAngle, sortRoads, findLeftLane, findRightLane,
// findMiddleLane and createRoadConnection. Each is a field of `Env`, a
// function value the caller passes in, so the model says exactly which helper
// is called with which arguments and what is done with its result, and
// nothing about what the helper computes.

module Collaborators {
  import opened Wrappers
  import opened Interface

  /**
   * An input `road` element as the generators see it: the id attribute they
   * read themselves (0 when absent, as an XML integer read gives) and the
   * rest of the element, which only the helpers read.
   */
  datatype RoadNode = RoadNode(id: int, body: string)

  /** A length argument that may be the floating-point infinity. */
  datatype Bound = Finite(value: real) | Unbounded

  /**
   * The numeric arguments of generateRoad after the node and the road:
   * start arc length, end arc length (a cap), lateral trim, arc length of the
   * tie-in point on the declared road, and the tie-in pose (x, y, heading).
   */
  datatype Placement = Placement(
    sStart: real, sEnd: Bound, trim: real, sTie: real, x: real, y: real, hdg: real)

  /** The arguments of addSignal after the road: count, end, signal type and subtype. */
  datatype SignalRequest = SignalRequest(count: int, sEnd: Bound, signalType: string, subtype: string)

  datatype Env = Env(
    generateRoad: (Option<RoadNode>, Placement, Road) -> Road,
    buildRoad: (RoadNode, Road) -> (int, Road),
    tOffset: (LaneSection, int, real) -> real,
    minLaneId: LaneSection -> int,
    maxLaneId: LaneSection -> int,
    addObjects: (RoadNode, Road) -> (int, Road),
    addSignal: (Road, SignalRequest) -> Road,
    fixAngle: real -> real,
    sortRoads: (Road, Road, Road) -> (int, Road, Road, Road),
    leftLane: int -> int,
    rightLane: int -> int,
    middleLane: int -> int,
    createRoadConnection: (Road, Road, Road, Junction, int, int, string, string, string) -> (Road, Junction))
  {
    /**
     * The helpers that fill an approach road leave alone the three fields the
     * junction code stamps on it before calling them: id, junction and predecessor.
     */
    ghost predicate KeepsApproachStamp() {
      && (forall n, p, r :: Stamped(r, generateRoad(n, p, r)))
      && (forall n, r :: Stamped(r, addObjects(n, r).1))
      && (forall r, q :: Stamped(r, addSignal(r, q)))
    }

    /** createRoadConnection fills the connecting road it is given without changing its id. */
    ghost predicate KeepsConnectionId() {
      forall a, b, r, j, f, t, x, y, z :: createRoadConnection(a, b, r, j, f, t, x, y, z).0.id == r.id
    }

    /**
     * buildRoad and addObjects leave alone the fields the connecting-road code
     * sets before calling them: id, junction, inputSegmentId and isConnectingRoad.
     */
    ghost predicate KeepsSegmentStamp() {
      && (forall n, r :: SegmentStamped(r, buildRoad(n, r).1))
      && (forall n, r :: SegmentStamped(r, addObjects(n, r).1))
    }
  }

  ghost predicate Stamped(before: Road, after: Road) {
    after.id == before.id && after.junction == before.junction && after.predecessor == before.predecessor
  }

  ghost predicate SegmentStamped(before: Road, after: Road) {
    && after.id == before.id && after.junction == before.junction
    && after.inputSegmentId == before.inputSegmentId && after.isConnectingRoad == before.isConnectingRoad
  }

  /** The first lane section of a road (`laneSections.front()`); a default section when there is none. */
  function FrontSection(r: Road): LaneSection {
    if r.laneSections == [] then DefaultLaneSection(0) else r.laneSections[0]
  }

  /** The last geometry of a road (`geometries.back()`); a zero geometry when there is none. */
  function LastGeometry(r: Road): Geometry {
    if r.geometries == [] then Geometry(0, 0.0, 0.0, 0.0, 0.0, 0.0, 0.0, 0.0, 0.0)
    else r.geometries[|r.geometries| - 1]
  }
}
