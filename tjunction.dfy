// The T-junction generator of src/tjunction.h.
//
// A T-junction joins a main road and one access road ("MA") or three access
// roads ("3A"). The generator looks up the declared legs, works out how far
// from the intersection point each approach road starts (never closer than
// a safety floor derived from the widths of the other legs), appends three
// approach roads, then either the connecting roads the input lists
// ("single" connection) or six connecting roads from a fixed right-of-way
// table, and finally the junction. Geometry and lanes come from helpers that
// are not part of this model (see the collaborators module).

module TJunction {
  import opened Wrappers
  import opened Interface
  import opened Collaborators

  // ---------------------------------------------------------------------------
  // Input

  /** An `adRoad` child of the intersection point: road id, arc length and angle. */
  datatype AdRoad = AdRoad(id: int, s: real, angle: real)

  /** The `intersectionPoint` node: the main road's id, the arc length on it, and its `adRoad` children in order. */
  datatype IntersectionPoint = IntersectionPoint(refId: int, s: real, adRoads: seq<AdRoad>)

  /** A child of the `couplerArea` node: the road id it applies to and its offset. */
  datatype CouplerEntry = CouplerEntry(id: int, sOffset: real)

  /** The `couplerArea` node: the offset all legs default to and its children. */
  datatype CouplerArea = CouplerArea(sOffset: real, entries: seq<CouplerEntry>)

  /** A `laneLink` child: lanes to connect and the road marks it sets (absent attributes are None). */
  datatype LaneLinkNode = LaneLinkNode(
    fromId: int, toId: int, left: Option<string>, right: Option<string>, middle: Option<string>)

  /** A `roadLink` child of a user-defined connection. */
  datatype RoadLinkNode = RoadLinkNode(fromId: int, toId: int, laneLinks: seq<LaneLinkNode>)

  /** The coupler's `connection` node: its type attribute and its `roadLink` children. */
  datatype ConnectionNode = ConnectionNode(connectionType: string, roadLinks: seq<RoadLinkNode>)

  /** A `tjunction` node as read by the generator; ids of absent attributes read as 0. */
  datatype JunctionNode = JunctionNode(
    junctionType: string, id: int,
    intersectionPoint: Option<IntersectionPoint>,
    couplerArea: Option<CouplerArea>,
    connection: Option<ConnectionNode>,
    roads: seq<RoadNode>)

  /** The road-mark names the right-of-way table uses. */
  const NON: string := "none"
  const SOL: string := "solid"
  const BRO: string := "broken"

  // ---------------------------------------------------------------------------
  // Mode and legs

  /** "MA": a main road and one access road; "3A": three access roads. */
  datatype Mode = MainAccess | ThreeAccess

  function ParseMode(junctionType: string): (m: Option<Mode>)
    ensures m == Some(MainAccess) <==> junctionType == "MA"
    ensures m == Some(ThreeAccess) <==> junctionType == "3A"
    ensures m == None <==> junctionType != "MA" && junctionType != "3A"
  {
    if junctionType == "MA" then Some(MainAccess)
    else if junctionType == "3A" then Some(ThreeAccess)
    else None
  }

  /** The id of the k-th `adRoad`; a missing node reads as id 0. */
  function AdRoadId(ip: IntersectionPoint, k: nat): int {
    if k < |ip.adRoads| then ip.adRoads[k].id else 0
  }

  /** The id the second access leg is matched against: unset in mode "MA", where that leg is a null node (id 0). */
  function Add2Key(mode: Mode, ip: IntersectionPoint): int {
    if mode == ThreeAccess then AdRoadId(ip, 1) else 0
  }

  /** The last road with the given id, as the leg loop keeps overwriting its match. */
  function LastMatch(roads: seq<RoadNode>, id: int): (m: Option<RoadNode>)
    ensures m.Some? <==> exists k :: 0 <= k < |roads| && roads[k].id == id
    ensures m.Some? ==> exists k :: 0 <= k < |roads| && roads[k] == m.value && roads[k].id == id &&
                          forall l :: k < l < |roads| ==> roads[l].id != id
    decreases |roads|
  {
    if roads == [] then None
    else if roads[|roads| - 1].id == id then Some(roads[|roads| - 1])
    else
      var m := LastMatch(roads[..|roads| - 1], id);
      assert forall k :: 0 <= k < |roads| - 1 ==> roads[..|roads| - 1][k] == roads[k];
      m
  }

  datatype Legs = Legs(main: Option<RoadNode>, add1: Option<RoadNode>, add2: Option<RoadNode>)

  /** The leg loop: one pass over the `road` children; the second access leg is looked for in mode "3A" only. */
  method LocateLegs(roads: seq<RoadNode>, mode: Mode, ip: IntersectionPoint) returns (legs: Legs)
    ensures legs.main == LastMatch(roads, ip.refId)
    ensures legs.add1 == LastMatch(roads, AdRoadId(ip, 0))
    ensures legs.add2 == if mode == ThreeAccess then LastMatch(roads, AdRoadId(ip, 1)) else None
  {
    var main, add1, add2 := None, None, None;
    var k := 0;
    while k < |roads|
      invariant 0 <= k <= |roads|
      invariant main == LastMatch(roads[..k], ip.refId)
      invariant add1 == LastMatch(roads[..k], AdRoadId(ip, 0))
      invariant add2 == if mode == ThreeAccess then LastMatch(roads[..k], AdRoadId(ip, 1)) else None
    {
      assert roads[..k + 1][..k] == roads[..k];
      if roads[k].id == ip.refId {
        main := Some(roads[k]);
      }
      if roads[k].id == AdRoadId(ip, 0) {
        add1 := Some(roads[k]);
      }
      if mode == ThreeAccess && roads[k].id == AdRoadId(ip, 1) {
        add2 := Some(roads[k]);
      }
      k := k + 1;
    }
    assert roads[..k] == roads;
    legs := Legs(main, add1, add2);
  }

  // ---------------------------------------------------------------------------
  // Offsets

  /** The offset of the last entry for `id`, or `default` when none is for it. */
  function EntryOffset(entries: seq<CouplerEntry>, id: int, default: real): (o: real)
    ensures (forall k :: 0 <= k < |entries| ==> entries[k].id != id) ==> o == default
    ensures (exists k :: 0 <= k < |entries| && entries[k].id == id) ==>
      exists k :: 0 <= k < |entries| && entries[k].id == id && entries[k].sOffset == o &&
        forall l :: k < l < |entries| ==> entries[l].id != id
    decreases |entries|
  {
    if entries == [] then default
    else if entries[|entries| - 1].id == id then entries[|entries| - 1].sOffset
    else
      var o := EntryOffset(entries[..|entries| - 1], id, default);
      assert forall k :: 0 <= k < |entries| - 1 ==> entries[..|entries| - 1][k] == entries[k];
      o
  }

  /** A leg's declared offset: the coupler area's own offset (0 without one), overridden by an entry for the leg. */
  function DeclaredOffset(cA: Option<CouplerArea>, id: int): real {
    if cA.None? then 0.0 else EntryOffset(cA.value.entries, id, cA.value.sOffset)
  }

  /** The offset loop: every entry is compared against all three leg ids. */
  method DeclaredOffsets(cA: Option<CouplerArea>, idMain: int, id1: int, id2: int) returns (offMain: real, off1: real, off2: real)
    ensures offMain == DeclaredOffset(cA, idMain)
    ensures off1 == DeclaredOffset(cA, id1)
    ensures off2 == DeclaredOffset(cA, id2)
  {
    var sOffset := 0.0;
    if cA.Some? {
      sOffset := cA.value.sOffset;
    }
    offMain, off1, off2 := sOffset, sOffset, sOffset;
    var entries := if cA.Some? then cA.value.entries else [];
    var k := 0;
    while k < |entries|
      invariant 0 <= k <= |entries|
      invariant offMain == EntryOffset(entries[..k], idMain, sOffset)
      invariant off1 == EntryOffset(entries[..k], id1, sOffset)
      invariant off2 == EntryOffset(entries[..k], id2, sOffset)
    {
      assert entries[..k + 1][..k] == entries[..k];
      if entries[k].id == idMain {
        offMain := entries[k].sOffset;
      }
      if entries[k].id == id1 {
        off1 := entries[k].sOffset;
      }
      if entries[k].id == id2 {
        off2 := entries[k].sOffset;
      }
      k := k + 1;
    }
    assert entries[..k] == entries;
  }

  function Abs(x: real): (a: real)
    ensures a >= 0.0 && (a == x || a == -x)
  {
    if x < 0.0 then -x else x
  }

  function Max(a: real, b: real): (m: real)
    ensures m >= a && m >= b && (m == a || m == b)
  {
    if a < b then b else a
  }

  /** The width of a lane section: distance of its outermost lanes' borders from the reference line, summed. */
  function SectionWidth(ls: LaneSection, env: Env): (w: real)
    ensures w >= 0.0
  {
    Abs(env.tOffset(ls, env.minLaneId(ls), 0.0)) + Abs(env.tOffset(ls, env.maxLaneId(ls), 0.0))
  }

  /** The width of a leg: of the first lane section of the whole leg generated onto a default road. */
  function LegWidth(leg: Option<RoadNode>, env: Env): (w: real)
    ensures w >= 0.0
  {
    SectionWidth(FrontSection(env.generateRoad(leg, Placement(0.0, Unbounded, 0.0, 0.0, 0.0, 0.0, 0.0), DefaultRoad())), env)
  }

  /** The closest a leg may start to the intersection: four times the larger half-width of the other two legs. */
  function SafetyFloor(wa: real, wb: real): (f: real)
    ensures f >= 2.0 * wa && f >= 2.0 * wb
    ensures f == 2.0 * wa || f == 2.0 * wb
  {
    Max(wa / 2.0, wb / 2.0) * 4.0
  }

  /**
   * The three successive raises: each offset ends at the larger of its
   * declared value and its floor, and the warning flag is set exactly when at
   * least one of them was below its floor.
   */
  method RaiseOffsets(offMain: real, off1: real, off2: real, w1: real, w2: real, w3: real)
    returns (fMain: real, f1: real, f2: real, changed: bool)
    ensures fMain == Max(offMain, w1) && f1 == Max(off1, w2) && f2 == Max(off2, w3)
    ensures changed <==> offMain < w1 || off1 < w2 || off2 < w3
  {
    fMain, f1, f2 := offMain, off1, off2;
    changed := false;
    if fMain < w1 {
      fMain := w1;
      changed := true;
    }
    if f1 < w2 {
      f1 := w2;
      changed := true;
    }
    if f2 < w3 {
      f2 := w3;
      changed := true;
    }
  }

  // ---------------------------------------------------------------------------
  // The checked input

  /**
   * What the generator knows once every check passed: mode, junction id, the
   * legs, arc lengths and angles at the intersection, the final offsets, the
   * offset warning, and the intersection pose (x, y, heading).
   */
  datatype SetupData = Setup(
    mode: Mode, junctionId: int,
    main: RoadNode, add1: RoadNode, add2: Option<RoadNode>,
    sMain: real, sAdd1: real, phi1: real, sAdd2: real, phi2: real,
    offMain: real, offAdd1: real, offAdd2: real, offsetWarning: bool,
    iPx: real, iPy: real, iPhdg: real)

  /** A second access leg is present exactly in mode "3A". */
  type Setup = s: SetupData | s.mode == ThreeAccess <==> s.add2.Some?
    witness Setup(MainAccess, 0, RoadNode(0, ""), RoadNode(0, ""), None,
                  0.0, 0.0, 0.0, 0.0, 0.0, 0.0, 0.0, 0.0, false, 0.0, 0.0, 0.0)

  /** The widths of the three legs, the second access leg being the null node in mode "MA". */
  function Widths(main: RoadNode, add1: RoadNode, add2: Option<RoadNode>, env: Env): (real, real, real) {
    (LegWidth(Some(main), env), LegWidth(Some(add1), env), LegWidth(add2, env))
  }

  /**
   * The checks before anything is appended, and their result: None when the
   * generator returns 1 with the network untouched.
   */
  function SetupOf(node: JunctionNode, env: Env): (s: Option<Setup>)
    ensures s.Some? ==> s.value.junctionId == node.id
  {
    var mode := ParseMode(node.junctionType);
    if mode.None? || node.intersectionPoint.None? then None
    else
      var m := mode.value;
      var ip := node.intersectionPoint.value;
      var main := LastMatch(node.roads, ip.refId);
      var add1 := LastMatch(node.roads, AdRoadId(ip, 0));
      var add2 := if m == ThreeAccess then LastMatch(node.roads, AdRoadId(ip, 1)) else None;
      if main.None? || add1.None? || (m == ThreeAccess && add2.None?) then None
      else if |ip.adRoads| < 1 || (m == ThreeAccess && |ip.adRoads| < 2) then None
      else
        var (w1, w2, w3) := Widths(main.value, add1.value, add2, env);
        var dMain := DeclaredOffset(node.couplerArea, ip.refId);
        var d1 := DeclaredOffset(node.couplerArea, AdRoadId(ip, 0));
        var d2 := DeclaredOffset(node.couplerArea, Add2Key(m, ip));
        var pose := LastGeometry(env.generateRoad(main, Placement(ip.s, Unbounded, 0.0, ip.s, 0.0, 0.0, 0.0), DefaultRoad()));
        Some(Setup(
          m, node.id, main.value, add1.value, add2,
          ip.s, ip.adRoads[0].s, ip.adRoads[0].angle,
          if m == ThreeAccess then ip.adRoads[1].s else 0.0,
          if m == ThreeAccess then ip.adRoads[1].angle else 0.0,
          Max(dMain, SafetyFloor(w2, w3)), Max(d1, SafetyFloor(w1, w3)), Max(d2, SafetyFloor(w1, w2)),
          dMain < SafetyFloor(w2, w3) || d1 < SafetyFloor(w1, w3) || d2 < SafetyFloor(w1, w2),
          pose.x, pose.y, pose.hdg))
  }

  /**
   * The junction fails before appending anything exactly when its type is
   * neither "MA" nor "3A", it has no intersection point, a needed leg is not
   * among its roads, or a needed `adRoad` node is missing.
   */
  lemma SetupFailsExactly(node: JunctionNode, env: Env)
    ensures SetupOf(node, env).None? <==>
      || ParseMode(node.junctionType).None?
      || node.intersectionPoint.None?
      || (var ip := node.intersectionPoint.value;
          var three := ParseMode(node.junctionType) == Some(ThreeAccess);
          || (forall k :: 0 <= k < |node.roads| ==> node.roads[k].id != ip.refId)
          || (forall k :: 0 <= k < |node.roads| ==> node.roads[k].id != AdRoadId(ip, 0))
          || (three && forall k :: 0 <= k < |node.roads| ==> node.roads[k].id != AdRoadId(ip, 1))
          || |ip.adRoads| < (if three then 2 else 1))
  {
    if ParseMode(node.junctionType).Some? && node.intersectionPoint.Some? {
      var ip := node.intersectionPoint.value;
      var main := LastMatch(node.roads, ip.refId);
      var add1 := LastMatch(node.roads, AdRoadId(ip, 0));
      var add2 := LastMatch(node.roads, AdRoadId(ip, 1));
    }
  }

  /** The legs found are roads of the node carrying the ids the intersection point asks for. */
  lemma SetupLegs(node: JunctionNode, env: Env)
    requires SetupOf(node, env).Some?
    ensures var v := SetupOf(node, env).value; var ip := node.intersectionPoint.value;
      && v.main.id == ip.refId && v.main in node.roads
      && v.add1.id == AdRoadId(ip, 0) && v.add1 in node.roads
      && (v.add2.Some? ==> v.add2.value.id == AdRoadId(ip, 1) && v.add2.value in node.roads)
  {
    var ip := node.intersectionPoint.value;
    var main := LastMatch(node.roads, ip.refId);
    var add1 := LastMatch(node.roads, AdRoadId(ip, 0));
    var add2 := LastMatch(node.roads, AdRoadId(ip, 1));
  }

  /**
   * Every final offset is at least its declared value and at least its
   * floor (twice the width of either other leg), and equal to one of the two;
   * the warning is set exactly when some declared offset was below its floor.
   */
  lemma SetupOffsets(node: JunctionNode, env: Env)
    requires SetupOf(node, env).Some?
    ensures var v := SetupOf(node, env).value;
      var ip := node.intersectionPoint.value;
      var (w1, w2, w3) := Widths(v.main, v.add1, v.add2, env);
      var dMain := DeclaredOffset(node.couplerArea, ip.refId);
      var d1 := DeclaredOffset(node.couplerArea, AdRoadId(ip, 0));
      var d2 := DeclaredOffset(node.couplerArea, Add2Key(v.mode, ip));
      && v.offMain >= dMain && v.offMain >= 2.0 * w2 && v.offMain >= 2.0 * w3
      && v.offAdd1 >= d1 && v.offAdd1 >= 2.0 * w1 && v.offAdd1 >= 2.0 * w3
      && v.offAdd2 >= d2 && v.offAdd2 >= 2.0 * w1 && v.offAdd2 >= 2.0 * w2
      && (v.offMain == dMain || v.offMain == SafetyFloor(w2, w3))
      && (v.offAdd1 == d1 || v.offAdd1 == SafetyFloor(w1, w3))
      && (v.offAdd2 == d2 || v.offAdd2 == SafetyFloor(w1, w2))
      && (v.offsetWarning <==> dMain < SafetyFloor(w2, w3) || d1 < SafetyFloor(w1, w3) || d2 < SafetyFloor(w1, w2))
  {
    var v := SetupOf(node, env).value;
    var (w1, w2, w3) := Widths(v.main, v.add1, v.add2, env);
    assert SafetyFloor(w2, w3) >= 2.0 * w2 && SafetyFloor(w2, w3) >= 2.0 * w3;
    assert SafetyFloor(w1, w3) >= 2.0 * w1 && SafetyFloor(w1, w3) >= 2.0 * w3;
    assert SafetyFloor(w1, w2) >= 2.0 * w1 && SafetyFloor(w1, w2) >= 2.0 * w2;
  }

  /**
   * The part of the generator before the first road is appended: the mode
   * check, the leg loop, the offset loop, the raises to the floors, the
   * `adRoad` checks and the intersection pose.
   */
  method Prepare(node: JunctionNode, env: Env) returns (setup: Option<Setup>)
    ensures setup == SetupOf(node, env)
  {
    var mode := 0;
    if node.junctionType == "MA" {
      mode := 1;
    }
    if node.junctionType == "3A" {
      mode := 2;
    }
    if mode == 0 {
      return None;
    }
    var m := if mode == 1 then MainAccess else ThreeAccess;
    assert ParseMode(node.junctionType) == Some(m);
    if node.intersectionPoint.None? {
      return None;
    }
    var ip := node.intersectionPoint.value;
    var legs := LocateLegs(node.roads, m, ip);
    if legs.main.None? || legs.add1.None? || (m == ThreeAccess && legs.add2.None?) {
      return None;
    }
    var offMain, off1, off2 := DeclaredOffsets(node.couplerArea, ip.refId, AdRoadId(ip, 0), Add2Key(m, ip));
    var width1 := LegWidth(legs.main, env);
    var width2 := LegWidth(legs.add1, env);
    var width3 := LegWidth(legs.add2, env);
    var w1 := SafetyFloor(width2, width3);
    var w2 := SafetyFloor(width1, width3);
    var w3 := SafetyFloor(width1, width2);
    var changed;
    offMain, off1, off2, changed := RaiseOffsets(offMain, off1, off2, w1, w2, w3);
    var sMain := ip.s;
    if |ip.adRoads| < 1 {
      return None;
    }
    var sAdd1, phi1 := ip.adRoads[0].s, ip.adRoads[0].angle;
    var sAdd2, phi2 := 0.0, 0.0;
    if m == ThreeAccess {
      if |ip.adRoads| < 2 {
        return None;
      }
      sAdd2, phi2 := ip.adRoads[1].s, ip.adRoads[1].angle;
    }
    var helperRoad := env.generateRoad(legs.main, Placement(sMain, Unbounded, 0.0, sMain, 0.0, 0.0, 0.0), DefaultRoad());
    var g := LastGeometry(helperRoad);
    setup := Some(Setup(
      m, node.id, legs.main.value, legs.add1.value, legs.add2,
      sMain, sAdd1, phi1, sAdd2, phi2, offMain, off1, off2, changed, g.x, g.y, g.hdg));
  }

  // ---------------------------------------------------------------------------
  // Approach roads

  /** An approach road before it is filled: id 100 * j + k, in junction j, with the junction as predecessor. */
  function ApproachStamp(j: int, k: int): (r: Road)
    ensures r.id == 100 * j + k && r.junction == j
    ensures r.predecessor.elementType == "junction" && r.predecessor.elementId == j
    ensures r.geometries == [] && r.laneSections == []
  {
    var d := DefaultRoad();
    d.(id := 100 * j + k, junction := j,
       predecessor := d.predecessor.(elementType := "junction", elementId := j))
  }

  /** How one approach road is filled: the generateRoad call, if any, and the node its objects come from. */
  datatype Approach = Approach(generate: Option<(RoadNode, Placement)>, objectsFrom: RoadNode)

  /**
   * The approach roads of each mode. In mode "3A" road k is the whole leg k,
   * started its offset past the intersection. In mode "MA" roads 1 and 2 are
   * the main road before and after the intersection, generated only when the
   * normalised access angle is not zero, with the trims swapped by its sign;
   * road 3 is the access road, turned by the raw angle.
   */
  function Approaches(s: Setup, env: Env): (plan: seq<Approach>)
    ensures |plan| == 3
    ensures forall k :: 0 <= k < 3 && plan[k].generate.Some? ==> plan[k].generate.value.0 == plan[k].objectsFrom
    ensures s.mode == ThreeAccess ==>
      && plan[0].objectsFrom == s.main && plan[1].objectsFrom == s.add1 && Some(plan[2].objectsFrom) == s.add2
      && (forall k :: 0 <= k < 3 ==>
            (plan[k].generate.Some? && plan[k].generate.value.1.sEnd == Unbounded && plan[k].generate.value.1.trim == 0.0))
      && plan[0].generate.value.1.sStart == s.sMain + s.offMain
      && plan[1].generate.value.1.sStart == s.sAdd1 + s.offAdd1
      && plan[2].generate.value.1.sStart == s.sAdd2 + s.offAdd2
    ensures s.mode == MainAccess ==>
      && plan[0].objectsFrom == s.main && plan[1].objectsFrom == s.main && plan[2].objectsFrom == s.add1
      && (plan[0].generate.Some? <==> env.fixAngle(s.phi1) != 0.0)
      && (plan[1].generate.Some? <==> env.fixAngle(s.phi1) != 0.0)
      && (plan[0].generate.Some? ==>
            plan[0].generate.value.1.sStart == s.sMain - s.offMain && plan[0].generate.value.1.sEnd == Finite(0.0) &&
            plan[1].generate.value.1.sStart == s.sMain + s.offMain && plan[1].generate.value.1.sEnd == Unbounded &&
            (plan[0].generate.value.1.trim, plan[1].generate.value.1.trim) ==
              (if env.fixAngle(s.phi1) > 0.0 then (50.0, -1.0) else (-1.0, 50.0)))
      && plan[2].generate == Some((s.add1, Placement(s.sAdd1 + s.offAdd1, Unbounded, 0.0, s.sAdd1, s.iPx, s.iPy, s.iPhdg + s.phi1)))
  {
    var pose := (s.iPx, s.iPy, s.iPhdg);
    match s.mode
    case MainAccess =>
      var phi := env.fixAngle(s.phi1);
      var before := Placement(s.sMain - s.offMain, Finite(0.0), 0.0, s.sMain, s.iPx, s.iPy, s.iPhdg);
      var after := Placement(s.sMain + s.offMain, Unbounded, 0.0, s.sMain, s.iPx, s.iPy, s.iPhdg);
      [ Approach(if phi > 0.0 then Some((s.main, before.(trim := 50.0)))
                 else if phi < 0.0 then Some((s.main, before.(trim := -1.0))) else None, s.main),
        Approach(if phi > 0.0 then Some((s.main, after.(trim := -1.0)))
                 else if phi < 0.0 then Some((s.main, after.(trim := 50.0))) else None, s.main),
        Approach(Some((s.add1, Placement(s.sAdd1 + s.offAdd1, Unbounded, 0.0, s.sAdd1, s.iPx, s.iPy, s.iPhdg + s.phi1))), s.add1) ]
    case ThreeAccess =>
      var add2 := s.add2.value;
      [ Approach(Some((s.main, Placement(s.sMain + s.offMain, Unbounded, 0.0, s.sMain, s.iPx, s.iPy, s.iPhdg))), s.main),
        Approach(Some((s.add1, Placement(s.sAdd1 + s.offAdd1, Unbounded, 0.0, s.sAdd1, s.iPx, s.iPy, s.iPhdg + s.phi1))), s.add1),
        Approach(Some((add2, Placement(s.sAdd2 + s.offAdd2, Unbounded, 0.0, s.sAdd2, s.iPx, s.iPy, s.iPhdg + s.phi2))), add2) ]
  }

  /** The signal every approach road gets: one "1.000.001" signal, subtype "-", at no end limit. */
  const APPROACH_SIGNAL: SignalRequest := SignalRequest(1, Unbounded, "1.000.001", "-")

  /** Approach road k of junction j: stamped, generated (when it is), given its objects and its signal. */
  function ApproachRoad(j: int, k: int, a: Approach, env: Env): (r: Road)
    ensures env.KeepsApproachStamp() ==> Stamped(ApproachStamp(j, k), r)
  {
    var stamp := ApproachStamp(j, k);
    var generated := if a.generate.Some? then env.generateRoad(Some(a.generate.value.0), a.generate.value.1, stamp) else stamp;
    env.addSignal(env.addObjects(a.objectsFrom, generated).1, APPROACH_SIGNAL)
  }

  /**
   * The three approach roads, in the order they are appended. With helpers
   * that keep the stamp, road k has id 100 * j + k, junction j and the
   * junction j as predecessor.
   */
  function ApproachRoads(s: Setup, env: Env): (rs: seq<Road>)
    ensures |rs| == 3
    ensures env.KeepsApproachStamp() ==> forall k :: 0 <= k < 3 ==>
      && rs[k].id == 100 * s.junctionId + k + 1 && rs[k].junction == s.junctionId
      && rs[k].predecessor.elementType == "junction" && rs[k].predecessor.elementId == s.junctionId
  {
    var plan := Approaches(s, env);
    [ApproachRoad(s.junctionId, 1, plan[0], env), ApproachRoad(s.junctionId, 2, plan[1], env), ApproachRoad(s.junctionId, 3, plan[2], env)]
  }

  /** The three approach roads as the generator builds them, branch by branch. */
  method BuildApproachRoads(s: Setup, env: Env) returns (r1: Road, r2: Road, r3: Road)
    ensures [r1, r2, r3] == ApproachRoads(s, env)
  {
    var j := s.junctionId;
    r1 := DefaultRoad();
    r1 := r1.(id := 100 * j + 1, junction := j);
    r1 := r1.(predecessor := r1.predecessor.(elementType := "junction", elementId := j));
    if s.mode == MainAccess {
      var phi := env.fixAngle(s.phi1);
      if phi > 0.0 {
        r1 := env.generateRoad(Some(s.main), Placement(s.sMain - s.offMain, Finite(0.0), 50.0, s.sMain, s.iPx, s.iPy, s.iPhdg), r1);
      }
      if phi < 0.0 {
        r1 := env.generateRoad(Some(s.main), Placement(s.sMain - s.offMain, Finite(0.0), -1.0, s.sMain, s.iPx, s.iPy, s.iPhdg), r1);
      }
    }
    if s.mode == ThreeAccess {
      r1 := env.generateRoad(Some(s.main), Placement(s.sMain + s.offMain, Unbounded, 0.0, s.sMain, s.iPx, s.iPy, s.iPhdg), r1);
    }
    r1 := env.addObjects(s.main, r1).1;
    r1 := env.addSignal(r1, APPROACH_SIGNAL);

    r2 := DefaultRoad();
    r2 := r2.(id := 100 * j + 2, junction := j);
    r2 := r2.(predecessor := r2.predecessor.(elementType := "junction", elementId := j));
    if s.mode == MainAccess {
      var phi := env.fixAngle(s.phi1);
      if phi > 0.0 {
        r2 := env.generateRoad(Some(s.main), Placement(s.sMain + s.offMain, Unbounded, -1.0, s.sMain, s.iPx, s.iPy, s.iPhdg), r2);
      }
      if phi < 0.0 {
        r2 := env.generateRoad(Some(s.main), Placement(s.sMain + s.offMain, Unbounded, 50.0, s.sMain, s.iPx, s.iPy, s.iPhdg), r2);
      }
      r2 := env.addObjects(s.main, r2).1;
    }
    if s.mode == ThreeAccess {
      r2 := env.generateRoad(Some(s.add1), Placement(s.sAdd1 + s.offAdd1, Unbounded, 0.0, s.sAdd1, s.iPx, s.iPy, s.iPhdg + s.phi1), r2);
      r2 := env.addObjects(s.add1, r2).1;
    }
    r2 := env.addSignal(r2, APPROACH_SIGNAL);

    r3 := DefaultRoad();
    r3 := r3.(id := 100 * j + 3, junction := j);
    r3 := r3.(predecessor := r3.predecessor.(elementType := "junction", elementId := j));
    if s.mode == MainAccess {
      r3 := env.generateRoad(Some(s.add1), Placement(s.sAdd1 + s.offAdd1, Unbounded, 0.0, s.sAdd1, s.iPx, s.iPy, s.iPhdg + s.phi1), r3);
      r3 := env.addObjects(s.add1, r3).1;
    }
    if s.mode == ThreeAccess {
      var add2 := s.add2.value;
      r3 := env.generateRoad(Some(add2), Placement(s.sAdd2 + s.offAdd2, Unbounded, 0.0, s.sAdd2, s.iPx, s.iPy, s.iPhdg + s.phi2), r3);
      r3 := env.addObjects(add2, r3).1;
    }
    r3 := env.addSignal(r3, APPROACH_SIGNAL);
  }

  // ---------------------------------------------------------------------------
  // User-defined connecting roads

  /**
   * The road marks a user lane link asks for: each is the attribute's value
   * when the attribute is present, "none" otherwise.
   */
  function UserMarks(ll: LaneLinkNode): (marks: (string, string, string))
    ensures marks.0 == (if ll.left.Some? then ll.left.value else NON)
    ensures marks.1 == (if ll.right.Some? then ll.right.value else NON)
    ensures marks.2 == (if ll.middle.Some? then ll.middle.value else NON)
  {
    var left := if ll.left.Some? then ll.left.value else NON;
    var right := if ll.right.Some? then ll.right.value else NON;
    var middle := if ll.middle.Some? then ll.middle.value else NON;
    (left, right, middle)
  }

  /**
   * The marks as the source assigns them: the `right` attribute is written
   * into the left mark, so the right mark passed on is always "none" and a
   * present `right` attribute replaces the `left` one.
   */
  function UserMarksAsWritten(ll: LaneLinkNode): (marks: (string, string, string))
    ensures marks.1 == NON
    ensures ll.right.Some? ==> marks.0 == ll.right.value
    ensures ll.right.None? && ll.left.Some? ==> marks.0 == ll.left.value
    ensures ll.right.None? && ll.left.None? ==> marks.0 == NON
    ensures ll.middle.Some? ==> marks.2 == ll.middle.value
    ensures ll.middle.None? ==> marks.2 == NON
  {
    var left := if ll.left.Some? then ll.left.value else NON;
    var left := if ll.right.Some? then ll.right.value else left;
    var middle := if ll.middle.Some? then ll.middle.value else NON;
    (left, NON, middle)
  }

  /**
   * The marks as written against the intended ones: equal without a `right`
   * attribute; with one, its value takes the left mark and the right is "none".
   */
  lemma MarksAsWrittenVsIntended(ll: LaneLinkNode)
    ensures ll.right.None? ==> UserMarksAsWritten(ll) == UserMarks(ll)
    ensures ll.right.Some? ==> UserMarksAsWritten(ll) == (UserMarks(ll).1, NON, UserMarks(ll).2)
  {
  }

  /** A lane link with a broken left and a solid right mark loses both as written. */
  lemma RightMarkOverwritesLeft()
    ensures var ll := LaneLinkNode(1, -1, Some(BRO), Some(SOL), None);
      UserMarksAsWritten(ll) == (SOL, NON, NON) && UserMarks(ll) == (BRO, SOL, NON)
  {
  }

  /** What connecting the lanes of a junction produced: success, the road list, the junction. */
  datatype Outcome = Outcome(ok: bool, roads: seq<Road>, junction: Junction)

  /**
   * The road and junction createRoadConnection makes for one lane link: a
   * default road with the given id, the link's lane ids and the marks as the
   * source assigns them.
   */
  function LaneLinkRoad(r1: Road, r2: Road, ll: LaneLinkNode, id: int, junc: Junction, env: Env): (Road, Junction) {
    var m := UserMarksAsWritten(ll);
    env.createRoadConnection(r1, r2, DefaultRoad().(id := id), junc, ll.fromId, ll.toId, m.0, m.1, m.2)
  }

  /**
   * The lane links of one road link, each appended as a new road whose id is
   * 100 * j + (number of roads before it) + 1, filled by createRoadConnection
   * with the marks as the source assigns them.
   */
  function LaneLinkRoads(r1: Road, r2: Road, lls: seq<LaneLinkNode>, roads: seq<Road>, j: int, junc: Junction, env: Env)
    : (res: (seq<Road>, Junction))
    ensures |res.0| == |roads| + |lls| && res.0[..|roads|] == roads
    decreases |lls|
  {
    if lls == [] then (roads, junc)
    else
      var made := LaneLinkRoad(r1, r2, lls[0], 100 * j + |roads| + 1, junc, env);
      var res := LaneLinkRoads(r1, r2, lls[1..], roads + [made.0], j, made.1, env);
      assert res.0[..|roads|] == (roads + [made.0])[..|roads|];
      res
  }

  /** From lane link m on: link m is appended, then the links after it. */
  lemma LaneLinkRoadsStep(r1: Road, r2: Road, lls: seq<LaneLinkNode>, m: nat, roads: seq<Road>, j: int, junc: Junction, env: Env,
                          target: (seq<Road>, Junction), next: (Road, Junction))
    requires m < |lls| && next == LaneLinkRoad(r1, r2, lls[m], 100 * j + |roads| + 1, junc, env)
    requires LaneLinkRoads(r1, r2, lls[m..], roads, j, junc, env) == target
    ensures LaneLinkRoads(r1, r2, lls[m + 1..], roads + [next.0], j, next.1, env) == target
  {
    assert lls[m..][0] == lls[m] && lls[m..][1..] == lls[m + 1..];
  }

  /** The junction lane link i of LaneLinkRoads is connected on: the one the earlier lane links left behind. */
  function JunctionBefore(r1: Road, r2: Road, lls: seq<LaneLinkNode>, roads: seq<Road>, j: int, junc: Junction, env: Env, i: nat)
    : Junction
    requires i < |lls|
    decreases i
  {
    if i == 0 then junc
    else
      var made := LaneLinkRoad(r1, r2, lls[0], 100 * j + |roads| + 1, junc, env);
      JunctionBefore(r1, r2, lls[1..], roads + [made.0], j, made.1, env, i - 1)
  }

  /**
   * Road |roads| + i is what createRoadConnection made from lane link i, with
   * id 100 * j + |roads| + i + 1 and the marks as the source assigns them.
   */
  lemma {:induction false} LaneLinkRoadMarks(r1: Road, r2: Road, lls: seq<LaneLinkNode>, roads: seq<Road>, j: int,
                                             junc: Junction, env: Env, i: nat)
    requires i < |lls|
    ensures LaneLinkRoads(r1, r2, lls, roads, j, junc, env).0[|roads| + i]
      == LaneLinkRoad(r1, r2, lls[i], 100 * j + |roads| + i + 1, JunctionBefore(r1, r2, lls, roads, j, junc, env, i), env).0
    decreases |lls|
  {
    var made := LaneLinkRoad(r1, r2, lls[0], 100 * j + |roads| + 1, junc, env);
    var more := roads + [made.0];
    var rest := LaneLinkRoads(r1, r2, lls[1..], more, j, made.1, env);
    assert LaneLinkRoads(r1, r2, lls, roads, j, junc, env) == rest;
    if i == 0 {
      assert rest.0[..|roads| + 1][|roads|] == made.0;
    } else {
      LaneLinkRoadMarks(r1, r2, lls[1..], more, j, made.1, env, i - 1);
      var k := |more| + (i - 1);
      assert k == |roads| + i;
      assert lls[1..][i - 1] == lls[i];
      assert JunctionBefore(r1, r2, lls, roads, j, junc, env, i) == JunctionBefore(r1, r2, lls[1..], more, j, made.1, env, i - 1);
    }
  }

  /** When createRoadConnection keeps ids, road k appended by the lane links has id 100 * j + k + 1. */
  lemma LaneLinkRoadIds(r1: Road, r2: Road, lls: seq<LaneLinkNode>, roads: seq<Road>, j: int, junc: Junction, env: Env)
    requires env.KeepsConnectionId()
    ensures forall k :: |roads| <= k < |roads| + |lls| ==> LaneLinkRoads(r1, r2, lls, roads, j, junc, env).0[k].id == 100 * j + k + 1
  {
    forall k | |roads| <= k < |roads| + |lls|
      ensures LaneLinkRoads(r1, r2, lls, roads, j, junc, env).0[k].id == 100 * j + k + 1
    {
      LaneLinkRoadMarks(r1, r2, lls, roads, j, junc, env, k - |roads|);
    }
  }

  /** The number of lane links of a list of road links. */
  function LaneLinkCount(links: seq<RoadLinkNode>): nat {
    if links == [] then 0 else |links[0].laneLinks| + LaneLinkCount(links[1..])
  }

  /**
   * The user-defined branch: road links in order; each looks up its two
   * roads among all roads so far (the last with each id) and stops with
   * failure, keeping what was appended, when either is not found; otherwise
   * its lane links are appended. Every appended road has id 100 * j + its
   * index + 1 when createRoadConnection keeps ids.
   */
  function UserLinkRoads(links: seq<RoadLinkNode>, roads: seq<Road>, j: int, junc: Junction, env: Env): (o: Outcome)
    ensures |roads| <= |o.roads| && o.roads[..|roads|] == roads
    ensures o.ok ==> |o.roads| == |roads| + LaneLinkCount(links)
    decreases |links|
  {
    if links == [] then Outcome(true, roads, junc)
    else
      var r1 := LastWithId(roads, links[0].fromId);
      var r2 := LastWithId(roads, links[0].toId);
      if r1.id == NO_ID || r2.id == NO_ID then Outcome(false, roads, junc)
      else
        var made := LaneLinkRoads(r1, r2, links[0].laneLinks, roads, j, junc, env);
        var o := UserLinkRoads(links[1..], made.0, j, made.1, env);
        assert o.roads[..|roads|] == o.roads[..|made.0|][..|roads|];
        o
  }

  /**
   * Every road the user-defined branch appends has id 100 * j + its index + 1
   * when createRoadConnection keeps ids, however the branch ends.
   */
  lemma {:induction false} UserLinkRoadIds(links: seq<RoadLinkNode>, roads: seq<Road>, j: int, junc: Junction, env: Env)
    ensures env.KeepsConnectionId() ==> forall i :: |roads| <= i < |UserLinkRoads(links, roads, j, junc, env).roads| ==>
      UserLinkRoads(links, roads, j, junc, env).roads[i].id == 100 * j + i + 1
    decreases |links|
  {
    if links != [] && env.KeepsConnectionId() {
      var r1 := LastWithId(roads, links[0].fromId);
      var r2 := LastWithId(roads, links[0].toId);
      if r1.id != NO_ID && r2.id != NO_ID {
        var made := LaneLinkRoads(r1, r2, links[0].laneLinks, roads, j, junc, env);
        var o := UserLinkRoads(links[1..], made.0, j, made.1, env);
        assert UserLinkRoads(links, roads, j, junc, env) == o;
        LaneLinkRoadIds(r1, r2, links[0].laneLinks, roads, j, junc, env);
        UserLinkRoadIds(links[1..], made.0, j, made.1, env);
        forall i | |roads| <= i < |o.roads|
          ensures o.roads[i].id == 100 * j + i + 1
        {
          if i < |made.0| {
            assert o.roads[..|made.0|] == made.0;
            assert o.roads[i] == made.0[i];
            assert made.0[i].id == 100 * j + i + 1;
          }
        }
      }
    }
  }

  /** A road id some road of the list carries, and not the "not found" id. */
  ghost predicate Known(roads: seq<Road>, id: int) {
    id != NO_ID && exists k :: 0 <= k < |roads| && roads[k].id == id
  }

  lemma KnownInLonger(roads: seq<Road>, more: seq<Road>, id: int)
    requires Known(roads, id) && |roads| <= |more| && more[..|roads|] == roads
    ensures Known(more, id)
  {
    var k :| 0 <= k < |roads| && roads[k].id == id;
    assert more[k] == roads[k];
  }

  /** When every road link names roads that already exist, the user-defined branch succeeds. */
  lemma {:induction false} UserLinksSucceed(links: seq<RoadLinkNode>, roads: seq<Road>, j: int, junc: Junction, env: Env)
    requires forall l :: l in links ==> Known(roads, l.fromId) && Known(roads, l.toId)
    ensures UserLinkRoads(links, roads, j, junc, env).ok
    decreases |links|
  {
    if links != [] {
      LastWithIdFound(roads, links[0].fromId);
      LastWithIdFound(roads, links[0].toId);
      var r1 := LastWithId(roads, links[0].fromId);
      var r2 := LastWithId(roads, links[0].toId);
      var made := LaneLinkRoads(r1, r2, links[0].laneLinks, roads, j, junc, env);
      forall l | l in links[1..] ensures Known(made.0, l.fromId) && Known(made.0, l.toId) {
        KnownInLonger(roads, made.0, l.fromId);
        KnownInLonger(roads, made.0, l.toId);
      }
      UserLinksSucceed(links[1..], made.0, j, made.1, env);
    }
  }

  /** A first road link naming a road that does not exist fails at once and appends nothing. */
  lemma UserLinksStopAtUnknown(links: seq<RoadLinkNode>, roads: seq<Road>, j: int, junc: Junction, env: Env)
    requires links != [] && (!Known(roads, links[0].fromId) || !Known(roads, links[0].toId))
    ensures var o := UserLinkRoads(links, roads, j, junc, env); !o.ok && o.roads == roads && o.junction == junc
  {
    LastWithIdFound(roads, links[0].fromId);
    LastWithIdFound(roads, links[0].toId);
  }

  /** The lookup loop of one road link: the last road with each id, a default road (id -1) when none has it. */
  method FindLinkRoads(roads: seq<Road>, fromId: int, toId: int) returns (r1: Road, r2: Road)
    ensures r1 == LastWithId(roads, fromId) && r2 == LastWithId(roads, toId)
  {
    r1, r2 := DefaultRoad(), DefaultRoad();
    var k := 0;
    while k < |roads|
      invariant 0 <= k <= |roads|
      invariant r1 == LastWithId(roads[..k], fromId) && r2 == LastWithId(roads[..k], toId)
    {
      assert roads[..k + 1][..k] == roads[..k];
      if roads[k].id == fromId {
        r1 := roads[k];
      }
      if roads[k].id == toId {
        r2 := roads[k];
      }
      k := k + 1;
    }
    assert roads[..k] == roads;
  }

  /** One lane link of the loop: its marks as the source assigns them, then one road appended in place. */
  method AppendLaneLink(data: RoadNetwork, r1: Road, r2: Road, ll: LaneLinkNode, j: int, junc0: Junction, env: Env)
    returns (junc: Junction)
    modifies data
    ensures var made := LaneLinkRoad(r1, r2, ll, 100 * j + |old(data.roads)| + 1, junc0, env);
      data.roads == old(data.roads) + [made.0] && junc == made.1
    ensures data.Rest() == old(data.Rest()) && data.junctions == old(data.junctions)
  {
    var left, right, middle := NON, NON, NON;
    if ll.left.Some? {
      left := ll.left.value;
    }
    if ll.right.Some? {
      left := ll.right.value;
    }
    if ll.middle.Some? {
      middle := ll.middle.value;
    }
    var r := DefaultRoad().(id := 100 * j + |data.roads| + 1);
    var res := env.createRoadConnection(r1, r2, r, junc0, ll.fromId, ll.toId, left, right, middle);
    junc := res.1;
    data.roads := data.roads + [res.0];
  }

  /** The lane-link loop of one road link, appending to the network in place. */
  method AppendLaneLinks(data: RoadNetwork, r1: Road, r2: Road, lls: seq<LaneLinkNode>, j: int, junc0: Junction, env: Env)
    returns (junc: Junction)
    modifies data
    ensures (data.roads, junc) == LaneLinkRoads(r1, r2, lls, old(data.roads), j, junc0, env)
    ensures data.Rest() == old(data.Rest()) && data.junctions == old(data.junctions)
  {
    junc := junc0;
    ghost var made := LaneLinkRoads(r1, r2, lls, data.roads, j, junc, env);
    assert lls[0..] == lls;
    var m := 0;
    while m < |lls|
      invariant 0 <= m <= |lls|
      invariant LaneLinkRoads(r1, r2, lls[m..], data.roads, j, junc, env) == made
      invariant data.Rest() == old(data.Rest()) && data.junctions == old(data.junctions)
    {
      ghost var next := LaneLinkRoad(r1, r2, lls[m], 100 * j + |data.roads| + 1, junc, env);
      LaneLinkRoadsStep(r1, r2, lls, m, data.roads, j, junc, env, made, next);
      junc := AppendLaneLink(data, r1, r2, lls[m], j, junc, env);
      m := m + 1;
    }
    assert lls[m..] == [];
  }

  /** One step of the user-defined branch: the first road link's lookup, then its lane links, then the rest. */
  lemma UserLinkRoadsStep(links: seq<RoadLinkNode>, roads: seq<Road>, j: int, junc: Junction, env: Env, r1: Road, r2: Road)
    requires links != []
    requires r1 == LastWithId(roads, links[0].fromId) && r2 == LastWithId(roads, links[0].toId)
    ensures r1.id == NO_ID || r2.id == NO_ID ==> UserLinkRoads(links, roads, j, junc, env) == Outcome(false, roads, junc)
    ensures r1.id != NO_ID && r2.id != NO_ID ==>
      var made := LaneLinkRoads(r1, r2, links[0].laneLinks, roads, j, junc, env);
      UserLinkRoads(links, roads, j, junc, env) == UserLinkRoads(links[1..], made.0, j, made.1, env)
  {
  }

  /** The user-defined branch as the generator runs it, appending to the network in place. */
  method UserConnections(data: RoadNetwork, links: seq<RoadLinkNode>, j: int, env: Env) returns (ok: bool, junc: Junction)
    modifies data
    ensures Outcome(ok, data.roads, junc) == UserLinkRoads(links, old(data.roads), j, NewJunction(j), env)
    ensures data.Rest() == old(data.Rest()) && data.junctions == old(data.junctions)
  {
    junc := NewJunction(j);
    ghost var target := UserLinkRoads(links, data.roads, j, junc, env);
    var i := 0;
    while i < |links|
      invariant 0 <= i <= |links|
      invariant UserLinkRoads(links[i..], data.roads, j, junc, env) == target
      invariant data.Rest() == old(data.Rest()) && data.junctions == old(data.junctions)
    {
      assert links[i..][0] == links[i] && links[i..][1..] == links[i + 1..];
      var r1, r2 := FindLinkRoads(data.roads, links[i].fromId, links[i].toId);
      UserLinkRoadsStep(links[i..], data.roads, j, junc, env, r1, r2);
      if r1.id == NO_ID || r2.id == NO_ID {
        return false, junc;
      }
      junc := AppendLaneLinks(data, r1, r2, links[i].laneLinks, j, junc, env);
      i := i + 1;
    }
    return true, junc;
  }

  // ---------------------------------------------------------------------------
  // Automatic connecting roads

  /** One of the three sorted approach roads. */
  datatype Leg = Leg1 | Leg2 | Leg3

  /** Which lane of a leg a connecting road starts or ends on: findRightLane, findLeftLane or findMiddleLane. */
  datatype Lanes = RightLanes | LeftLanes | MiddleLane

  /** One row of the right-of-way table: legs, lane selectors and the (left, right, middle) road marks. */
  datatype PlanEntry = PlanEntry(from: Leg, to: Leg, fromLanes: Lanes, toLanes: Lanes, left: string, right: string, middle: string)

  /**
   * The right-of-way table for the six connecting roads 1->2, 2->1, 2->3,
   * 3->2, 3->1, 1->3, keyed on the mode and the sign of the raw access angle
   * phi1. None: no createRoadConnection call for that road.
   */
  function AutoPlan(mode: Mode, phi1: real): (plan: seq<Option<PlanEntry>>)
    ensures |plan| == 6
  {
    var row23 := Some(PlanEntry(Leg2, Leg3, RightLanes, RightLanes, NON, SOL, NON));
    var row32 := Some(PlanEntry(Leg3, Leg2, LeftLanes, LeftLanes, NON, NON, NON));
    var left := mode == MainAccess && phi1 > 0.0;
    var right := mode == MainAccess && phi1 < 0.0;
    if mode == MainAccess && phi1 == 0.0 then [None, None, row23, row32, None, None]
    else
      [ Some(if left then PlanEntry(Leg1, Leg2, RightLanes, RightLanes, BRO, SOL, BRO)
             else PlanEntry(Leg1, Leg2, RightLanes, RightLanes, NON, SOL, NON)),
        Some(if left then PlanEntry(Leg2, Leg1, MiddleLane, LeftLanes, BRO, BRO, BRO)
             else PlanEntry(Leg2, Leg1, LeftLanes, LeftLanes, NON, NON, NON)),
        row23,
        row32,
        Some(if right then PlanEntry(Leg3, Leg1, RightLanes, RightLanes, BRO, SOL, BRO)
             else PlanEntry(Leg3, Leg1, RightLanes, RightLanes, NON, SOL, NON)),
        Some(if right then PlanEntry(Leg1, Leg3, MiddleLane, LeftLanes, BRO, BRO, BRO)
             else PlanEntry(Leg1, Leg3, LeftLanes, LeftLanes, NON, NON, NON)) ]
  }

  /** The table row by row, as the six blocks of the automatic branch lay it out. */
  lemma AutoPlanTable(mode: Mode, phi1: real)
    // 2 -> 3 and 3 -> 2 do not depend on the angle
    ensures var plan := AutoPlan(mode, phi1); plan[2] == Some(PlanEntry(Leg2, Leg3, RightLanes, RightLanes, NON, SOL, NON))
    ensures var plan := AutoPlan(mode, phi1); plan[3] == Some(PlanEntry(Leg3, Leg2, LeftLanes, LeftLanes, NON, NON, NON))
    // the other four are connected unless the access road meets "MA" at angle 0
    ensures var plan := AutoPlan(mode, phi1); plan[0].None? <==> mode == MainAccess && phi1 == 0.0
    ensures var plan := AutoPlan(mode, phi1); plan[1].None? <==> mode == MainAccess && phi1 == 0.0
    ensures var plan := AutoPlan(mode, phi1); plan[4].None? <==> mode == MainAccess && phi1 == 0.0
    ensures var plan := AutoPlan(mode, phi1); plan[5].None? <==> mode == MainAccess && phi1 == 0.0
    // 1 -> 2: right lanes, solid centre; broken outer marks only for "MA" with phi1 > 0
    ensures var plan := AutoPlan(mode, phi1); plan[0].Some? ==>
      var e := plan[0].value;
      && e.from == Leg1 && e.to == Leg2 && e.fromLanes == RightLanes && e.toLanes == RightLanes
      && e.right == SOL && e.left == e.middle && (e.left == BRO <==> mode == MainAccess && phi1 > 0.0)
      && (e.left == BRO || e.left == NON)
    // 3 -> 1: right lanes, solid centre; broken outer marks only for "MA" with phi1 < 0
    ensures var plan := AutoPlan(mode, phi1); plan[4].Some? ==>
      var e := plan[4].value;
      && e.from == Leg3 && e.to == Leg1 && e.fromLanes == RightLanes && e.toLanes == RightLanes
      && e.right == SOL && e.left == e.middle && (e.left == BRO <==> mode == MainAccess && phi1 < 0.0)
      && (e.left == BRO || e.left == NON)
    // 2 -> 1: from the middle lane, all broken, only for "MA" with phi1 > 0; else left lanes, no marks
    ensures var plan := AutoPlan(mode, phi1); plan[1].Some? ==>
      var e := plan[1].value;
      && e.from == Leg2 && e.to == Leg1 && e.toLanes == LeftLanes
      && (e.fromLanes == MiddleLane <==> mode == MainAccess && phi1 > 0.0)
      && (e.fromLanes == MiddleLane ==> e.left == BRO && e.right == BRO && e.middle == BRO)
      && (e.fromLanes != MiddleLane ==> e.fromLanes == LeftLanes && e.left == NON && e.right == NON && e.middle == NON)
    // 1 -> 3: from the middle lane, all broken, only for "MA" with phi1 < 0; else left lanes, no marks
    ensures var plan := AutoPlan(mode, phi1); plan[5].Some? ==>
      var e := plan[5].value;
      && e.from == Leg1 && e.to == Leg3 && e.toLanes == LeftLanes
      && (e.fromLanes == MiddleLane <==> mode == MainAccess && phi1 < 0.0)
      && (e.fromLanes == MiddleLane ==> e.left == BRO && e.right == BRO && e.middle == BRO)
      && (e.fromLanes != MiddleLane ==> e.fromLanes == LeftLanes && e.left == NON && e.right == NON && e.middle == NON)
  {
  }

  function LegRoad(legs: (Road, Road, Road), l: Leg): Road {
    match l
    case Leg1 => legs.0
    case Leg2 => legs.1
    case Leg3 => legs.2
  }

  function LaneOf(sel: Lanes, laneId: int, env: Env): int {
    match sel
    case RightLanes => env.rightLane(laneId)
    case LeftLanes => env.leftLane(laneId)
    case MiddleLane => env.middleLane(laneId)
  }

  /**
   * One connecting road: a default road with the given id, filled by
   * createRoadConnection from the outermost lane (max id) of its source leg
   * to the innermost (min id) of its target leg when the table has a row.
   */
  function TableRoad(entry: Option<PlanEntry>, id: int, legs: (Road, Road, Road), junc: Junction, env: Env)
    : (res: (Road, Junction))
    ensures entry.None? ==> res == (DefaultRoad().(id := id), junc)
  {
    var r := DefaultRoad().(id := id);
    if entry.None? then (r, junc)
    else
      var e := entry.value;
      var a := LegRoad(legs, e.from);
      var b := LegRoad(legs, e.to);
      env.createRoadConnection(a, b, r, junc,
        LaneOf(e.fromLanes, env.maxLaneId(FrontSection(a)), env),
        LaneOf(e.toLanes, env.minLaneId(FrontSection(b)), env),
        e.left, e.right, e.middle)
  }

  /** A table road keeps its id when createRoadConnection keeps ids. */
  lemma TableRoadId(entry: Option<PlanEntry>, id: int, legs: (Road, Road, Road), junc: Junction, env: Env)
    requires env.KeepsConnectionId()
    ensures TableRoad(entry, id, legs, junc, env).0.id == id
  {
    if entry.Some? {
      var e := entry.value;
      var a, b := LegRoad(legs, e.from), LegRoad(legs, e.to);
      var fromLane := LaneOf(e.fromLanes, env.maxLaneId(FrontSection(a)), env);
      var toLane := LaneOf(e.toLanes, env.minLaneId(FrontSection(b)), env);
      assert env.createRoadConnection(a, b, DefaultRoad().(id := id), junc, fromLane, toLane, e.left, e.right, e.middle).0.id == id;
    }
  }

  /** The table's roads in order, ids counting up from `nextId`, each appended whether or not its row is empty. */
  function TableRoads(plan: seq<Option<PlanEntry>>, legs: (Road, Road, Road), nextId: int, junc: Junction, env: Env)
    : (res: (seq<Road>, Junction))
    ensures |res.0| == |plan|
    decreases |plan|
  {
    if plan == [] then ([], junc)
    else
      var prev := TableRoads(plan[..|plan| - 1], legs, nextId, junc, env);
      var last := TableRoad(plan[|plan| - 1], nextId + |plan| - 1, legs, prev.1, env);
      (prev.0 + [last.0], last.1)
  }

  /** One more row of the table: its road is appended and its junction carried on. */
  lemma TableRoadsSnoc(plan: seq<Option<PlanEntry>>, n: nat, legs: (Road, Road, Road), nextId: int, junc: Junction,
                       prev: (seq<Road>, Junction), r: Road, j: Junction, env: Env)
    requires n < |plan|
    requires TableRoads(plan[..n], legs, nextId, junc, env) == prev
    requires (r, j) == TableRoad(plan[n], nextId + n, legs, prev.1, env)
    ensures TableRoads(plan[..n + 1], legs, nextId, junc, env) == (prev.0 + [r], j)
  {
    assert plan[..n + 1][..n] == plan[..n];
  }

  /** Road k of the table is row k made with the junction the first k rows left. */
  lemma {:induction false} TableRoadAt(plan: seq<Option<PlanEntry>>, legs: (Road, Road, Road), nextId: int, junc: Junction, env: Env, k: nat)
    requires k < |plan|
    ensures TableRoads(plan, legs, nextId, junc, env).0[k]
         == TableRoad(plan[k], nextId + k, legs, TableRoads(plan[..k], legs, nextId, junc, env).1, env).0
    decreases |plan|
  {
    var n := |plan| - 1;
    if k < n {
      TableRoadAt(plan[..n], legs, nextId, junc, env, k);
      assert plan[..n][..k] == plan[..k];
    } else {
      assert plan[..k] == plan[..n];
    }
  }

  /**
   * The table's roads carry the ids counting up from `nextId`: always for an
   * empty row, and for every row when createRoadConnection keeps ids.
   */
  lemma TableRoadIds(plan: seq<Option<PlanEntry>>, legs: (Road, Road, Road), nextId: int, junc: Junction, env: Env)
    ensures forall k :: 0 <= k < |plan| && (plan[k].None? || env.KeepsConnectionId()) ==>
      TableRoads(plan, legs, nextId, junc, env).0[k].id == nextId + k
  {
    forall k | 0 <= k < |plan| && (plan[k].None? || env.KeepsConnectionId())
      ensures TableRoads(plan, legs, nextId, junc, env).0[k].id == nextId + k
    {
      TableRoadAt(plan, legs, nextId, junc, env, k);
      RowId(plan[k], nextId + k, legs, TableRoads(plan[..k], legs, nextId, junc, env).1, env);
    }
  }

  /** An empty row of the table leaves a default road carrying its id. */
  lemma TableEmptyRows(plan: seq<Option<PlanEntry>>, legs: (Road, Road, Road), nextId: int, junc: Junction, env: Env)
    ensures forall k :: 0 <= k < |plan| && plan[k].None? ==>
      TableRoads(plan, legs, nextId, junc, env).0[k] == DefaultRoad().(id := nextId + k)
  {
    forall k | 0 <= k < |plan| && plan[k].None?
      ensures TableRoads(plan, legs, nextId, junc, env).0[k] == DefaultRoad().(id := nextId + k)
    {
      TableRoadAt(plan, legs, nextId, junc, env, k);
    }
  }

  /** A row's road has the row's id when the row is empty or createRoadConnection keeps ids; an empty row gives a default road. */
  lemma RowId(entry: Option<PlanEntry>, id: int, legs: (Road, Road, Road), junc: Junction, env: Env)
    ensures (entry.None? || env.KeepsConnectionId()) ==> TableRoad(entry, id, legs, junc, env).0.id == id
    ensures entry.None? ==> TableRoad(entry, id, legs, junc, env).0 == DefaultRoad().(id := id)
  {
    if env.KeepsConnectionId() {
      TableRoadId(entry, id, legs, junc, env);
    }
  }

  /**
   * The automatic branch: the three approach roads are sorted; a sorting
   * failure fails the junction with nothing more appended; otherwise the six
   * table roads, ids 100 * j + 51 to 100 * j + 56, are appended in order.
   */
  function AutoOutcome(s: Setup, approach: (Road, Road, Road), roads: seq<Road>, env: Env): (o: Outcome)
    ensures !o.ok ==> o.roads == roads
    ensures o.ok ==> |o.roads| == |roads| + 6 && o.roads[..|roads|] == roads
    ensures o.ok ==> forall i :: |roads| <= i < |roads| + 6 ==>
      ((env.KeepsConnectionId() || (s.mode == MainAccess && s.phi1 == 0.0 && i != |roads| + 2 && i != |roads| + 3)) ==>
        o.roads[i].id == 100 * s.junctionId + 51 + (i - |roads|))
  {
    var j := s.junctionId;
    var sorted := env.sortRoads(approach.0, approach.1, approach.2);
    if sorted.0 != 0 then Outcome(false, roads, NewJunction(j))
    else
      var made := TableRoads(AutoPlan(s.mode, s.phi1), (sorted.1, sorted.2, sorted.3), 100 * j + 51, NewJunction(j), env);
      TableRoadIds(AutoPlan(s.mode, s.phi1), (sorted.1, sorted.2, sorted.3), 100 * j + 51, NewJunction(j), env);
      AutoPlanTable(s.mode, s.phi1);
      assert (roads + made.0)[..|roads|] == roads;
      Outcome(true, roads + made.0, made.1)
  }

  // Each block below is one of the six blocks of the automatic branch, with
  // the source's own conditions; together they follow the table.

  method Connect12(s: Setup, a: Road, b: Road, c: Road, junc0: Junction, env: Env) returns (r: Road, junc: Junction)
    ensures (r, junc) == TableRoad(AutoPlan(s.mode, s.phi1)[0], 100 * s.junctionId + 51 + 0, (a, b, c), junc0, env)
  {
    r, junc := DefaultRoad().(id := 100 * s.junctionId + 50 + 1), junc0;
    var from, to := env.rightLane(env.maxLaneId(FrontSection(a))), env.rightLane(env.minLaneId(FrontSection(b)));
    var res;
    if s.mode == MainAccess && s.phi1 > 0.0 {
      res := env.createRoadConnection(a, b, r, junc, from, to, BRO, SOL, BRO);
      r, junc := res.0, res.1;
    }
    if s.mode == MainAccess && s.phi1 < 0.0 {
      res := env.createRoadConnection(a, b, r, junc, from, to, NON, SOL, NON);
      r, junc := res.0, res.1;
    }
    if s.mode == ThreeAccess {
      res := env.createRoadConnection(a, b, r, junc, from, to, NON, SOL, NON);
      r, junc := res.0, res.1;
    }
  }

  method Connect21(s: Setup, a: Road, b: Road, c: Road, junc0: Junction, env: Env) returns (r: Road, junc: Junction)
    ensures (r, junc) == TableRoad(AutoPlan(s.mode, s.phi1)[1], 100 * s.junctionId + 51 + 1, (a, b, c), junc0, env)
  {
    r, junc := DefaultRoad().(id := 100 * s.junctionId + 50 + 2), junc0;
    var max2, min1 := env.maxLaneId(FrontSection(b)), env.minLaneId(FrontSection(a));
    var res;
    if s.mode == MainAccess && s.phi1 > 0.0 {
      res := env.createRoadConnection(b, a, r, junc, env.middleLane(max2), env.leftLane(min1), BRO, BRO, BRO);
      r, junc := res.0, res.1;
    }
    if s.mode == MainAccess && s.phi1 < 0.0 {
      res := env.createRoadConnection(b, a, r, junc, env.leftLane(max2), env.leftLane(min1), NON, NON, NON);
      r, junc := res.0, res.1;
    }
    if s.mode == ThreeAccess {
      res := env.createRoadConnection(b, a, r, junc, env.leftLane(max2), env.leftLane(min1), NON, NON, NON);
      r, junc := res.0, res.1;
    }
  }

  method Connect23(s: Setup, a: Road, b: Road, c: Road, junc0: Junction, env: Env) returns (r: Road, junc: Junction)
    ensures (r, junc) == TableRoad(AutoPlan(s.mode, s.phi1)[2], 100 * s.junctionId + 51 + 2, (a, b, c), junc0, env)
  {
    r := DefaultRoad().(id := 100 * s.junctionId + 50 + 3);
    var from, to := env.rightLane(env.maxLaneId(FrontSection(b))), env.rightLane(env.minLaneId(FrontSection(c)));
    var res := env.createRoadConnection(b, c, r, junc0, from, to, NON, SOL, NON);
    r, junc := res.0, res.1;
  }

  method Connect32(s: Setup, a: Road, b: Road, c: Road, junc0: Junction, env: Env) returns (r: Road, junc: Junction)
    ensures (r, junc) == TableRoad(AutoPlan(s.mode, s.phi1)[3], 100 * s.junctionId + 51 + 3, (a, b, c), junc0, env)
  {
    r := DefaultRoad().(id := 100 * s.junctionId + 50 + 4);
    var from, to := env.leftLane(env.maxLaneId(FrontSection(c))), env.leftLane(env.minLaneId(FrontSection(b)));
    var res := env.createRoadConnection(c, b, r, junc0, from, to, NON, NON, NON);
    r, junc := res.0, res.1;
  }

  method Connect31(s: Setup, a: Road, b: Road, c: Road, junc0: Junction, env: Env) returns (r: Road, junc: Junction)
    ensures (r, junc) == TableRoad(AutoPlan(s.mode, s.phi1)[4], 100 * s.junctionId + 51 + 4, (a, b, c), junc0, env)
  {
    r, junc := DefaultRoad().(id := 100 * s.junctionId + 50 + 5), junc0;
    var from, to := env.rightLane(env.maxLaneId(FrontSection(c))), env.rightLane(env.minLaneId(FrontSection(a)));
    var res;
    if s.mode == MainAccess && s.phi1 > 0.0 {
      res := env.createRoadConnection(c, a, r, junc, from, to, NON, SOL, NON);
      r, junc := res.0, res.1;
    }
    if s.mode == MainAccess && s.phi1 < 0.0 {
      res := env.createRoadConnection(c, a, r, junc, from, to, BRO, SOL, BRO);
      r, junc := res.0, res.1;
    }
    if s.mode == ThreeAccess {
      res := env.createRoadConnection(c, a, r, junc, from, to, NON, SOL, NON);
      r, junc := res.0, res.1;
    }
  }

  method Connect13(s: Setup, a: Road, b: Road, c: Road, junc0: Junction, env: Env) returns (r: Road, junc: Junction)
    ensures (r, junc) == TableRoad(AutoPlan(s.mode, s.phi1)[5], 100 * s.junctionId + 51 + 5, (a, b, c), junc0, env)
  {
    r, junc := DefaultRoad().(id := 100 * s.junctionId + 50 + 6), junc0;
    var max1, min3 := env.maxLaneId(FrontSection(a)), env.minLaneId(FrontSection(c));
    var res;
    if s.mode == MainAccess && s.phi1 > 0.0 {
      res := env.createRoadConnection(a, c, r, junc, env.leftLane(max1), env.leftLane(min3), NON, NON, NON);
      r, junc := res.0, res.1;
    }
    if s.mode == MainAccess && s.phi1 < 0.0 {
      res := env.createRoadConnection(a, c, r, junc, env.middleLane(max1), env.leftLane(min3), BRO, BRO, BRO);
      r, junc := res.0, res.1;
    }
    if s.mode == ThreeAccess {
      res := env.createRoadConnection(a, c, r, junc, env.leftLane(max1), env.leftLane(min3), NON, NON, NON);
      r, junc := res.0, res.1;
    }
  }

  /** AutoOutcome once the sort has succeeded and the table's roads are known. */
  lemma AutoOutcomeSorted(s: Setup, approach: (Road, Road, Road), roads: seq<Road>, env: Env,
                          made: (seq<Road>, Junction))
    requires var sorted := env.sortRoads(approach.0, approach.1, approach.2);
      sorted.0 == 0 &&
      TableRoads(AutoPlan(s.mode, s.phi1), (sorted.1, sorted.2, sorted.3), 100 * s.junctionId + 51, NewJunction(s.junctionId), env) == made
    ensures AutoOutcome(s, approach, roads, env) == Outcome(true, roads + made.0, made.1)
  {
  }

  /** The first three blocks of the automatic branch: 1 -> 2, 2 -> 1, 2 -> 3. */
  method FirstConnections(s: Setup, a: Road, b: Road, c: Road, env: Env) returns (made: seq<Road>, junc: Junction)
    ensures (made, junc) == TableRoads(AutoPlan(s.mode, s.phi1)[..3], (a, b, c), 100 * s.junctionId + 51, NewJunction(s.junctionId), env)
  {
    ghost var plan, legs, id := AutoPlan(s.mode, s.phi1), (a, b, c), 100 * s.junctionId + 51;
    var j0 := NewJunction(s.junctionId);
    assert plan[..0] == [];
    var r;
    r, junc := Connect12(s, a, b, c, j0, env);
    TableRoadsSnoc(plan, 0, legs, id, j0, ([], j0), r, junc, env);
    made := [] + [r];
    ghost var prev := junc;
    r, junc := Connect21(s, a, b, c, junc, env);
    TableRoadsSnoc(plan, 1, legs, id, j0, (made, prev), r, junc, env);
    made := made + [r];
    prev := junc;
    r, junc := Connect23(s, a, b, c, junc, env);
    TableRoadsSnoc(plan, 2, legs, id, j0, (made, prev), r, junc, env);
    made := made + [r];
  }

  /** The last three blocks of the automatic branch: 3 -> 2, 3 -> 1, 1 -> 3, after the first three. */
  method LastConnections(s: Setup, a: Road, b: Road, c: Road, first: seq<Road>, junc0: Junction, env: Env)
    returns (made: seq<Road>, junc: Junction)
    requires (first, junc0) == TableRoads(AutoPlan(s.mode, s.phi1)[..3], (a, b, c), 100 * s.junctionId + 51, NewJunction(s.junctionId), env)
    ensures (made, junc) == TableRoads(AutoPlan(s.mode, s.phi1), (a, b, c), 100 * s.junctionId + 51, NewJunction(s.junctionId), env)
  {
    ghost var plan, legs, id := AutoPlan(s.mode, s.phi1), (a, b, c), 100 * s.junctionId + 51;
    var j0 := NewJunction(s.junctionId);
    var r;
    r, junc := Connect32(s, a, b, c, junc0, env);
    TableRoadsSnoc(plan, 3, legs, id, j0, (first, junc0), r, junc, env);
    made := first + [r];
    ghost var prev := junc;
    r, junc := Connect31(s, a, b, c, junc, env);
    TableRoadsSnoc(plan, 4, legs, id, j0, (made, prev), r, junc, env);
    made := made + [r];
    prev := junc;
    r, junc := Connect13(s, a, b, c, junc, env);
    TableRoadsSnoc(plan, 5, legs, id, j0, (made, prev), r, junc, env);
    made := made + [r];
    assert plan[..6] == plan;
  }

  /**
   * The automatic branch as the generator runs it: sort the approach roads,
   * then the six blocks; their roads are appended in the order they were made.
   */
  method AutoConnections(data: RoadNetwork, s: Setup, r1: Road, r2: Road, r3: Road, env: Env) returns (ok: bool, junc: Junction)
    modifies data
    ensures Outcome(ok, data.roads, junc) == AutoOutcome(s, (r1, r2, r3), old(data.roads), env)
    ensures data.Rest() == old(data.Rest()) && data.junctions == old(data.junctions)
  {
    junc := NewJunction(s.junctionId);
    var sorted := env.sortRoads(r1, r2, r3);
    if sorted.0 != 0 {
      return false, junc;
    }
    var first, made;
    first, junc := FirstConnections(s, sorted.1, sorted.2, sorted.3, env);
    made, junc := LastConnections(s, sorted.1, sorted.2, sorted.3, first, junc, env);
    AutoOutcomeSorted(s, (r1, r2, r3), data.roads, env, (made, junc));
    data.roads := data.roads + made;
    return true, junc;
  }

  // ---------------------------------------------------------------------------
  // The whole junction

  /** Whether the coupler's connection asks for user-defined connecting roads. */
  predicate UserDefined(node: JunctionNode) {
    node.connection.Some? && node.connection.value.connectionType == "single"
  }

  /**
   * What a junction that passed its checks appends: the three approach roads,
   * then the user-defined or the automatic connecting roads.
   */
  function JunctionOutcome(node: JunctionNode, s: Setup, roads: seq<Road>, env: Env): (o: Outcome)
    ensures |o.roads| >= |roads| + 3 && o.roads[..|roads| + 3] == roads + ApproachRoads(s, env)
    ensures UserDefined(node) && env.KeepsConnectionId() ==>
      forall i :: |roads| + 3 <= i < |o.roads| ==> o.roads[i].id == 100 * s.junctionId + i + 1
    ensures !UserDefined(node) ==> (o.ok <==> env.sortRoads(o.roads[|roads|], o.roads[|roads| + 1], o.roads[|roads| + 2]).0 == 0)
    ensures !UserDefined(node) && o.ok ==> |o.roads| == |roads| + 9
  {
    var base := roads + ApproachRoads(s, env);
    var ap := ApproachRoads(s, env);
    assert base[|roads|] == ap[0] && base[|roads| + 1] == ap[1] && base[|roads| + 2] == ap[2];
    var o := if UserDefined(node) then
               UserLinkRoadIds(node.connection.value.roadLinks, base, s.junctionId, NewJunction(s.junctionId), env);
               UserLinkRoads(node.connection.value.roadLinks, base, s.junctionId, NewJunction(s.junctionId), env)
             else AutoOutcome(s, (ap[0], ap[1], ap[2]), base, env);
    assert o.roads[..|roads| + 3] == o.roads[..|base|];
    o
  }

  /** Everything appended once the checks passed: the approach roads, then the connecting roads of either branch. */
  method AppendRoads(node: JunctionNode, data: RoadNetwork, s: Setup, env: Env) returns (ok: bool, junc: Junction)
    modifies data
    ensures Outcome(ok, data.roads, junc) == JunctionOutcome(node, s, old(data.roads), env)
    ensures data.Rest() == old(data.Rest()) && data.junctions == old(data.junctions)
  {
    var r1, r2, r3 := BuildApproachRoads(s, env);
    data.roads := data.roads + [r1];
    data.roads := data.roads + [r2];
    data.roads := data.roads + [r3];
    assert data.roads == old(data.roads) + [r1, r2, r3];
    if UserDefined(node) {
      ok, junc := UserConnections(data, node.connection.value.roadLinks, s.junctionId, env);
    } else {
      ok, junc := AutoConnections(data, s, r1, r2, r3, env);
    }
  }

  /**
   * The generator: 1 with the network untouched when a check fails; otherwise
   * the approach and connecting roads are appended, and the junction too,
   * with 0, exactly when the connecting roads succeeded.
   */
  method Generate(node: JunctionNode, data: RoadNetwork, env: Env) returns (status: int)
    modifies data
    ensures data.Rest() == old(data.Rest())
    ensures status == 0 || status == 1
    ensures SetupOf(node, env).None? ==>
      status == 1 && data.roads == old(data.roads) && data.junctions == old(data.junctions)
    ensures SetupOf(node, env).Some? ==>
      var o := JunctionOutcome(node, SetupOf(node, env).value, old(data.roads), env);
      && data.roads == o.roads
      && (status == 0 <==> o.ok)
      && data.junctions == old(data.junctions) + (if o.ok then [o.junction] else [])
  {
    var setup := Prepare(node, env);
    if setup.None? {
      return 1;
    }
    var ok, junc := AppendRoads(node, data, setup.value, env);
    if !ok {
      return 1;
    }
    data.junctions := data.junctions + [junc];
    return 0;
  }
}
