// The road-network records of src/interface.h and their default values.
//
// The structs of the header are value records: each becomes a datatype, and
// each default member initialiser becomes the value a `Default...` function
// gives that field. A string member without an initialiser starts out empty;
// other fields the header leaves uninitialised (the id of a lane, a junction
// or a connection, the `dynamic` flag of a signal, every field of a geometry)
// are parameters of the default functions instead. This version of
// src/interface.h predates the generation code: the elevation key points,
// their polynomials and the road fields `elevationProfiles`, `isConnectingRoad`, `inputSegmentId`, `inputId`,
// `elevationOffset`, `isLinkedToNetwork` and `successor.id` used by the
// elevation and connecting-road code are added here with the defaults
// documented on each.
//
// The road network is the one record that the generation code updates in
// place (`roadNetwork &data`), so it is a class.

module Interface {

  datatype LaneLink = LaneLink(from: int, to: int)

  datatype Connection = Connection(
    id: int, from: int, to: int, contactPoint: string, fromLane: int, toLane: int)

  datatype Junction = Junction(id: int, connections: seq<Connection>)

  datatype RoadMark = RoadMark(s: real, markType: string, weight: string, color: string, width: real)

  datatype Width = Width(s: real, a: real, b: real, c: real, d: real)

  datatype Offset = Offset(a: real, b: real, c: real, d: real)

  datatype Material = Material(s: real, surface: string, friction: real, roughness: real)

  datatype Lane = Lane(
    id: int, laneType: string, turn: int, level: int, speed: real,
    w: Width, rm: RoadMark, m: Material, preId: int, sucId: int)

  datatype LaneSection = LaneSection(id: int, s: real, lanes: seq<Lane>, o: Offset)

  datatype Geometry = Geometry(
    geometryType: int, s: real, x: real, y: real, hdg: real,
    length: real, c: real, c1: real, c2: real)

  /** A predecessor or successor link; `id` is the field the elevation code reads as `successor.id`. */
  datatype Link = Link(elementType: string, elementId: int, contactPoint: string, id: int)

  datatype Object = Object(
    id: int, objectType: string, s: real, t: real, z: real, hdg: real,
    orientation: string, length: real, width: real, height: real,
    repeat: bool, len: real, distance: real)

  datatype Signal = Signal(
    id: int, rule: int, signalType: string, subtype: string, value: real,
    s: real, t: real, z: real, orientation: string, width: real, height: real,
    dynamic: bool, country: string)

  datatype Control = Control(signals: seq<Signal>, id: int)

  /** One cubic piece a + b*ds + c*ds^2 + d*ds^3 of an elevation profile, starting at arc length s. */
  datatype ElevationPolynom = ElevationPolynom(a: real, b: real, c: real, d: real, s: real)

  /**
   * An elevation key point: height `tOffset` at arc length `sOffset`, blended
   * with radius `radius`; `outputElevation` collects the polynomials generated
   * for the stretch that starts at this point.
   */
  datatype ElevationProfile = ElevationProfile(
    sOffset: real, tOffset: real, radius: real,
    outputElevation: seq<ElevationPolynom>, inputId: int)

  datatype Road = Road(
    length: real, id: int, junction: int, roadType: string,
    predecessor: Link, successor: Link,
    geometries: seq<Geometry>, laneSections: seq<LaneSection>,
    objects: seq<Object>, signals: seq<Signal>,
    elevationProfiles: seq<ElevationProfile>,
    isConnectingRoad: bool, inputSegmentId: int, inputId: int,
    elevationOffset: real, isLinkedToNetwork: bool)

  /** The id a default road carries; the junction code reads it as "no road found". */
  const NO_ID: int := -1

  /**
   * An elevation key point as the generation code declares one and fills in:
   * the given offset, height and radius, no polynomials yet and no input id
   * (-1; the struct is not in this version of the header).
   */
  function NewKeyPoint(sOffset: real, tOffset: real, radius: real): (p: ElevationProfile)
    ensures p.sOffset == sOffset && p.tOffset == tOffset && p.radius == radius
    ensures p.outputElevation == [] && p.inputId == NO_ID
  {
    ElevationProfile(sOffset, tOffset, radius, [], NO_ID)
  }

  function DefaultConnection(id: int, from: int, to: int, fromLane: int, toLane: int): (c: Connection)
    ensures c.contactPoint == "start"
    ensures c.id == id && c.from == from && c.to == to && c.fromLane == fromLane && c.toLane == toLane
  {
    Connection(id, from, to, "start", fromLane, toLane)
  }

  /** A junction as the junction code declares it: its id and no connections yet. */
  function NewJunction(id: int): (j: Junction)
    ensures j.id == id && j.connections == []
  {
    Junction(id, [])
  }

  function DefaultRoadMark(): (rm: RoadMark)
    ensures rm.s == 0.0 && rm.markType == "solid" && rm.weight == "standard"
    ensures rm.color == "white" && rm.width == 0.15
  {
    RoadMark(0.0, "solid", "standard", "white", 0.15)
  }

  function DefaultWidth(): (w: Width)
    ensures w.s == 0.0 && w.a == 3.5 && w.b == 0.0 && w.c == 0.0 && w.d == 0.0
  {
    Width(0.0, 3.5, 0.0, 0.0, 0.0)
  }

  function DefaultOffset(): (o: Offset)
    ensures o.a == 0.0 && o.b == 0.0 && o.c == 0.0 && o.d == 0.0
  {
    Offset(0.0, 0.0, 0.0, 0.0)
  }

  function DefaultMaterial(): (m: Material)
    ensures m.s == 0.0 && m.surface == "asphalt" && m.friction == 0.8 && m.roughness == 0.015
  {
    Material(0.0, "asphalt", 0.8, 0.015)
  }

  /** A lane with the given id (the header leaves `id` uninitialised) and every other field at its default. */
  function DefaultLane(id: int): (l: Lane)
    ensures l.id == id && l.laneType == "driving" && l.turn == 0 && l.level == 0 && l.speed == 0.0
    ensures l.w == DefaultWidth() && l.rm == DefaultRoadMark() && l.m == DefaultMaterial()
    ensures l.preId == 0 && l.sucId == 0
  {
    Lane(id, "driving", 0, 0, 0.0, DefaultWidth(), DefaultRoadMark(), DefaultMaterial(), 0, 0)
  }

  function DefaultLaneSection(id: int): (ls: LaneSection)
    ensures ls.id == id && ls.s == 0.0 && ls.lanes == [] && ls.o == DefaultOffset()
  {
    LaneSection(id, 0.0, [], DefaultOffset())
  }

  /**
   * The default link points at no road: element type "road", element id -1,
   * contact point "start". The `id` field is not in this version of the
   * header; the model gives it -1, the value the elevation code tests against.
   */
  function DefaultLink(): (l: Link)
    ensures l.elementType == "road" && l.elementId == NO_ID && l.contactPoint == "start"
    ensures l.id == NO_ID
  {
    Link("road", NO_ID, "start", NO_ID)
  }

  /** A std::string member without an initialiser starts out empty. */
  function DefaultObject(): (o: Object)
    ensures o.id == NO_ID && o.objectType == "" && o.orientation == "none"
    ensures o.s == 0.0 && o.t == 0.0 && o.z == 0.0 && o.hdg == 0.0
    ensures o.length == 0.0 && o.width == 0.0 && o.height == 0.0
    ensures !o.repeat && o.len == 0.0 && o.distance == 0.0
  {
    Object(NO_ID, "", 0.0, 0.0, 0.0, 0.0, "none", 0.0, 0.0, 0.0, false, 0.0, 0.0)
  }

  /** The type starts out empty; the uninitialised `dynamic` flag is a parameter. */
  function DefaultSignal(dynamic: bool): (sg: Signal)
    ensures sg.id == NO_ID && sg.rule == NO_ID && sg.signalType == ""
    ensures sg.subtype == "-1" && sg.value == -1.0 && sg.s == 0.0 && sg.t == 0.0 && sg.z == 0.0
    ensures sg.orientation == "none" && sg.width == 0.0 && sg.height == 0.0
    ensures sg.dynamic == dynamic && sg.country == "OpenDRIVE"
  {
    Signal(NO_ID, NO_ID, "", "-1", -1.0, 0.0, 0.0, 0.0, "none", 0.0, 0.0, dynamic, "OpenDRIVE")
  }

  function DefaultControl(): (c: Control)
    ensures c.signals == [] && c.id == NO_ID
  {
    Control([], NO_ID)
  }

  /**
   * A default road: length 0, id -1, junction -1, type "town", default links
   * and no geometries, lane sections, objects, signals or elevation key points.
   * The fields missing from this version of the header default to: not a
   * connecting road, segment and input id -1, elevation offset 0, not linked.
   */
  function DefaultRoad(): (r: Road)
    ensures r.length == 0.0 && r.id == NO_ID && r.junction == NO_ID && r.roadType == "town"
    ensures r.predecessor == DefaultLink() && r.successor == DefaultLink()
    ensures r.geometries == [] && r.laneSections == [] && r.objects == [] && r.signals == []
    ensures r.elevationProfiles == [] && !r.isConnectingRoad
    ensures r.inputSegmentId == NO_ID && r.inputId == NO_ID
    ensures r.elevationOffset == 0.0 && !r.isLinkedToNetwork
  {
    Road(0.0, NO_ID, NO_ID, "town", DefaultLink(), DefaultLink(), [], [], [], [], [],
         false, NO_ID, NO_ID, 0.0, false)
  }

  /**
   * The last road of `roads` whose id is `id`, or the default road when there
   * is none: the lookup loop of the junction code, which overwrites its
   * result on every match.
   */
  function LastWithId(roads: seq<Road>, id: int): (r: Road)
    decreases |roads|
  {
    if roads == [] then DefaultRoad()
    else if roads[|roads| - 1].id == id then roads[|roads| - 1]
    else LastWithId(roads[..|roads| - 1], id)
  }

  /**
   * The default road works as a "not found" marker: the lookup yields a road
   * whose id is -1 exactly when no road carries the id asked for (or the id
   * asked for is -1 itself), and otherwise a road of the list with that id
   * after which no road has it.
   */
  lemma {:induction false} LastWithIdFound(roads: seq<Road>, id: int)
    ensures LastWithId(roads, id).id == NO_ID <==> (id == NO_ID || forall k :: 0 <= k < |roads| ==> roads[k].id != id)
    ensures id != NO_ID && (exists k :: 0 <= k < |roads| && roads[k].id == id) ==>
      exists k :: 0 <= k < |roads| && roads[k] == LastWithId(roads, id) && roads[k].id == id &&
        forall m :: k < m < |roads| ==> roads[m].id != id
    decreases |roads|
  {
    if roads != [] {
      var n := |roads| - 1;
      LastWithIdFound(roads[..n], id);
      if roads[n].id != id {
        assert forall k :: 0 <= k < n ==> roads[..n][k] == roads[k];
        if id != NO_ID && (exists k :: 0 <= k < |roads| && roads[k].id == id) {
          var k :| 0 <= k < |roads| && roads[k].id == id;
          assert k < n && roads[..n][k].id == id;
        }
      }
    }
  }

  /**
   * The road network that every generation step appends to. `outputFile` is
   * the field the pipeline driver sets; it is not in this version of the header.
   */
  class RoadNetwork {
    var file: string
    var roads: seq<Road>
    var junctions: seq<Junction>
    var controller: seq<Control>
    var nSignal: int
    var nSegment: int
    var versionMajor: int
    var versionMinor: int
    var outputFile: string

    /** A fresh network: nothing generated yet, counters at zero, format version 1.5. */
    constructor ()
      ensures file == "" && roads == [] && junctions == [] && controller == []
      ensures nSignal == 0 && nSegment == 0
      ensures versionMajor == 1 && versionMinor == 5
      ensures outputFile == ""
    {
      file := "";
      roads := [];
      junctions := [];
      controller := [];
      nSignal := 0;
      nSegment := 0;
      versionMajor := 1;
      versionMinor := 5;
      outputFile := "";
    }

    /** Everything but the road and junction lists, which the generators append to. */
    function Rest(): (string, seq<Control>, int, int, int, int, string)
      reads this
    {
      (file, controller, nSignal, nSegment, versionMajor, versionMinor, outputFile)
    }
  }
}
