// The connecting-road segment of src/generation/connectingRoad.h.
//
// A connecting road is one declared road turned into a segment of its own:
// the segment counter goes up, the road is stamped with its segment, built
// and given its objects by helpers outside this model, and, when the segment
// declares an elevation profile, given a key-point list (a synthetic start
// point, the declared points, a synthetic end point) sorted by offset.

module ConnectingRoad {
  import opened Wrappers
  import opened Interface
  import opened Collaborators
  import Elevation

  /** A child element of an `elevationProfile` node: its name and its s, height and r attributes. */
  datatype ProfileChild = ProfileChild(name: string, s: real, height: real, r: real)

  /** An `elevationProfile` node: start radius, end height, end radius and its child elements in document order. */
  datatype ProfileNode = ProfileNode(startR: real, endElevation: real, endR: real, children: seq<ProfileChild>)

  /** A `connectingRoad` segment node: its id, its `road` child and its `elevationProfile` child, either possibly absent. */
  datatype SegmentNode = SegmentNode(id: int, road: Option<RoadNode>, elevationProfile: Option<ProfileNode>)

  /** The road as stamped before it is built: id 100 * segment + road id, tagged with its segment, a connecting road. */
  function StampedRoad(segmentId: int, roadId: int): (r: Road)
    ensures r.id == 100 * segmentId + roadId
    ensures r.inputSegmentId == segmentId && r.junction == segmentId && r.isConnectingRoad
    ensures r.elevationProfiles == [] && r.length == 0.0
  {
    DefaultRoad().(id := 100 * segmentId + roadId, inputSegmentId := segmentId,
                   junction := segmentId, isConnectingRoad := true)
  }

  /**
   * buildRoad followed by addObjects on the stamped road: the first non-zero
   * status stops the segment (reported as 1); otherwise the road they produce.
   */
  function BuiltRoad(segmentId: int, n: RoadNode, env: Env): (res: Option<Road>)
    ensures res.Some? <==> env.buildRoad(n, StampedRoad(segmentId, n.id)).0 == 0 &&
                           env.addObjects(n, env.buildRoad(n, StampedRoad(segmentId, n.id)).1).0 == 0
    ensures res.Some? && env.KeepsSegmentStamp() ==> SegmentStamped(StampedRoad(segmentId, n.id), res.value)
  {
    var (built, r) := env.buildRoad(n, StampedRoad(segmentId, n.id));
    if built != 0 then None
    else
      var (added, r') := env.addObjects(n, r);
      if added != 0 then None else Some(r')
  }

  /** One key point per `elevationPoint` child, in document order; other children are skipped. */
  function DeclaredPoints(children: seq<ProfileChild>): (ps: seq<ElevationProfile>)
    ensures |ps| <= |children|
    ensures forall p :: p in ps ==> exists c :: c in children && c.name == "elevationPoint" && p == NewKeyPoint(c.s, c.height, c.r)
  {
    if children == [] then []
    else
      var c := children[|children| - 1];
      var ps := DeclaredPoints(children[..|children| - 1]);
      assert forall d :: d in children[..|children| - 1] ==> d in children;
      if c.name == "elevationPoint" then ps + [NewKeyPoint(c.s, c.height, c.r)] else ps
  }

  /** When every child is an `elevationPoint`, each gives exactly one key point, at its own position. */
  lemma {:induction false} DeclaredPointsOfPointsOnly(children: seq<ProfileChild>)
    requires forall k :: 0 <= k < |children| ==> children[k].name == "elevationPoint"
    ensures |DeclaredPoints(children)| == |children|
    ensures forall k :: 0 <= k < |children| ==>
      DeclaredPoints(children)[k] == NewKeyPoint(children[k].s, children[k].height, children[k].r)
  {
    if children != [] {
      var n := |children| - 1;
      DeclaredPointsOfPointsOnly(children[..n]);
    }
  }

  /** A single child gives one key point exactly when it is an `elevationPoint`. */
  lemma DeclaredPointsSingle(c: ProfileChild)
    ensures DeclaredPoints([c]) == if c.name == "elevationPoint" then [NewKeyPoint(c.s, c.height, c.r)] else []
  {
    assert [c][..0] == [];
  }

  /** The children are read in document order: the points of a concatenation are the concatenated points. */
  lemma {:induction false} DeclaredPointsAppend(a: seq<ProfileChild>, b: seq<ProfileChild>)
    ensures DeclaredPoints(a + b) == DeclaredPoints(a) + DeclaredPoints(b)
    decreases |b|
  {
    if b == [] {
      assert a + b == a;
    } else {
      var n := |b| - 1;
      assert (a + b)[..|a + b| - 1] == a + b[..n];
      assert (a + b)[|a + b| - 1] == b[n];
      DeclaredPointsAppend(a, b[..n]);
    }
  }

  /**
   * The key-point list before sorting: what buildRoad left, then (0, 0, startR),
   * the declared points, and (length, endElevation, endR).
   */
  function AssembledPoints(built: seq<ElevationProfile>, length: real, ep: ProfileNode): (ks: seq<ElevationProfile>)
    ensures |ks| == |built| + |DeclaredPoints(ep.children)| + 2
    ensures ks[..|built|] == built
    ensures ks[|built|] == NewKeyPoint(0.0, 0.0, ep.startR)
    ensures ks[|built| + 1..|ks| - 1] == DeclaredPoints(ep.children)
    ensures ks[|ks| - 1] == NewKeyPoint(length, ep.endElevation, ep.endR)
  {
    built + [NewKeyPoint(0.0, 0.0, ep.startR)] + DeclaredPoints(ep.children) + [NewKeyPoint(length, ep.endElevation, ep.endR)]
  }

  /** Ordered by the `<` of key points, which compares offsets. */
  predicate SortedByOffset(ks: seq<ElevationProfile>) {
    forall p, q :: 0 <= p < q < |ks| ==> ks[p].sOffset <= ks[q].sOffset
  }

  /** std::sort on the key points: in place, into offset order, a permutation of what was there. */
  method SortKeyPoints(a: array<ElevationProfile>)
    modifies a
    ensures SortedByOffset(a[..])
    ensures multiset(a[..]) == multiset(old(a[..]))
  {
    var i := 0;
    while i < a.Length
      invariant 0 <= i <= a.Length
      invariant forall p, q :: 0 <= p < q < i ==> a[p].sOffset <= a[q].sOffset
      invariant multiset(a[..]) == multiset(old(a[..]))
    {
      InsertKeyPoint(a, i);
      i := i + 1;
    }
  }

  /** One insertion step: a[i] moves down past every larger offset, so that a[..i + 1] is in order. */
  method InsertKeyPoint(a: array<ElevationProfile>, i: int)
    modifies a
    requires 0 <= i < a.Length
    requires forall p, q :: 0 <= p < q < i ==> a[p].sOffset <= a[q].sOffset
    ensures forall p, q :: 0 <= p < q <= i ==> a[p].sOffset <= a[q].sOffset
    ensures multiset(a[..]) == multiset(old(a[..]))
  {
    var j := i;
    while j > 0 && a[j - 1].sOffset > a[j].sOffset
      invariant 0 <= j <= i
      invariant forall p, q :: 0 <= p < q <= i && q != j ==> a[p].sOffset <= a[q].sOffset
      invariant multiset(a[..]) == multiset(old(a[..]))
    {
      SwapDown(a, j);
      j := j - 1;
    }
  }

  /** Exchange a[j - 1] and a[j]; nothing else moves. */
  method SwapDown(a: array<ElevationProfile>, j: int)
    modifies a
    requires 0 < j < a.Length
    ensures a[j - 1] == old(a[j]) && a[j] == old(a[j - 1])
    ensures forall k :: 0 <= k < a.Length && k != j - 1 && k != j ==> a[k] == old(a[k])
    ensures multiset(a[..]) == multiset(old(a[..]))
  {
    a[j - 1], a[j] := a[j], a[j - 1];
  }

  /** A sorted list lies within [lo, hi] exactly when its first and last offsets do. */
  lemma SortedEnds(ks: seq<ElevationProfile>, lo: real, hi: real)
    requires SortedByOffset(ks) && |ks| >= 1
    ensures ks[0].sOffset >= lo && ks[|ks| - 1].sOffset <= hi <==>
      forall p :: p in ks ==> lo <= p.sOffset <= hi
  {
    if ks[0].sOffset >= lo && ks[|ks| - 1].sOffset <= hi {
      forall p | p in ks ensures lo <= p.sOffset <= hi {
        var k :| 0 <= k < |ks| && ks[k] == p;
        assert ks[0].sOffset <= ks[k].sOffset <= ks[|ks| - 1].sOffset;
      }
    }
  }

  /**
   * The sorted key points of a connecting road pass the bounds check of the
   * elevation generator exactly when the road length is not negative and every
   * point buildRoad left and every declared point lies between 0 and the
   * length: the synthetic start and end points are always in range then.
   */
  lemma SortedPointsWithinRoad(r: Road, built: seq<ElevationProfile>, ep: ProfileNode)
    requires SortedByOffset(r.elevationProfiles)
    requires multiset(r.elevationProfiles) == multiset(AssembledPoints(built, r.length, ep))
    ensures |r.elevationProfiles| >= 1
    ensures Elevation.WithinRoad(r) <==>
      r.length >= 0.0 && forall p :: p in built + DeclaredPoints(ep.children) ==> 0.0 <= p.sOffset <= r.length
  {
    SameElements(r.elevationProfiles, AssembledPoints(built, r.length, ep));
    SortedWithinRoad(r, AssembledPoints(built, r.length, ep));
    AssembledInRange(built, r.length, ep);
  }

  /** Every key point lies between 0 and `hi`. */
  predicate InRange(ks: seq<ElevationProfile>, hi: real) {
    forall p :: p in ks ==> 0.0 <= p.sOffset <= hi
  }

  /** A road with sorted key points passes the bounds check exactly when a list with the same elements lies in range. */
  lemma SortedWithinRoad(r: Road, ks: seq<ElevationProfile>)
    requires SortedByOffset(r.elevationProfiles) && |r.elevationProfiles| >= 1
    requires forall p :: p in r.elevationProfiles <==> p in ks
    ensures Elevation.WithinRoad(r) <==> InRange(ks, r.length)
  {
    SortedEnds(r.elevationProfiles, 0.0, r.length);
    assert InRange(r.elevationProfiles, r.length) <==> InRange(ks, r.length);
  }

  /**
   * The assembled list lies within [0, length] exactly when the length is not
   * negative and the points other than the synthetic start and end do.
   */
  lemma AssembledInRange(built: seq<ElevationProfile>, length: real, ep: ProfileNode)
    ensures InRange(AssembledPoints(built, length, ep), length) <==>
      length >= 0.0 && forall p :: p in built + DeclaredPoints(ep.children) ==> 0.0 <= p.sOffset <= length
  {
    var ks := AssembledPoints(built, length, ep);
    var start, end := NewKeyPoint(0.0, 0.0, ep.startR), NewKeyPoint(length, ep.endElevation, ep.endR);
    assert ks == built + [start] + DeclaredPoints(ep.children) + [end];
    assert start in ks && end in ks;
  }

  /** Two lists with the same multiset have the same length and the same elements. */
  lemma SameElements<T>(xs: seq<T>, ys: seq<T>)
    requires multiset(xs) == multiset(ys)
    ensures |xs| == |ys| && forall p :: p in xs <==> p in ys
  {
    assert |multiset(xs)| == |multiset(ys)|;
    forall p ensures p in xs <==> p in ys {
      assert p in xs <==> p in multiset(xs);
      assert p in ys <==> p in multiset(ys);
    }
  }

  /** The key-point loop: buildRoad's points, the start point, each `elevationPoint` child in order, the end point. */
  method AssemblePoints(built: seq<ElevationProfile>, length: real, ep: ProfileNode) returns (eps: seq<ElevationProfile>)
    ensures eps == AssembledPoints(built, length, ep)
  {
    eps := built + [NewKeyPoint(0.0, 0.0, ep.startR)];
    var i := 0;
    while i < |ep.children|
      invariant 0 <= i <= |ep.children|
      invariant eps == built + [NewKeyPoint(0.0, 0.0, ep.startR)] + DeclaredPoints(ep.children[..i])
    {
      var c := ep.children[i];
      assert ep.children[..i + 1][..i] == ep.children[..i];
      if c.name == "elevationPoint" {
        eps := eps + [NewKeyPoint(c.s, c.height, c.r)];
      }
      i := i + 1;
    }
    assert ep.children[..i] == ep.children;
    eps := eps + [NewKeyPoint(length, ep.endElevation, ep.endR)];
  }

  /**
   * The road appended for a built road: the built road itself, its key points
   * untouched without an elevation profile, otherwise replaced by the
   * assembled list sorted by offset.
   */
  ghost predicate Finished(last: Road, built: Road, profile: Option<ProfileNode>) {
    && last == built.(elevationProfiles := last.elevationProfiles)
    && (profile.None? ==> last.elevationProfiles == built.elevationProfiles)
    && (profile.Some? ==>
          && SortedByOffset(last.elevationProfiles)
          && multiset(last.elevationProfiles) == multiset(AssembledPoints(built.elevationProfiles, built.length, profile.value)))
  }

  /** The road of a segment: stamped, built, given its objects, then its key points. None when a helper fails. */
  method MakeRoad(node: SegmentNode, mainRoad: RoadNode, env: Env) returns (res: Option<Road>)
    ensures res.None? <==> BuiltRoad(node.id, mainRoad, env).None?
    ensures res.Some? ==> Finished(res.value, BuiltRoad(node.id, mainRoad, env).value, node.elevationProfile)
  {
    var r := DefaultRoad();
    r := r.(id := 100 * node.id + mainRoad.id);
    r := r.(inputSegmentId := node.id);
    r := r.(junction := node.id);
    r := r.(isConnectingRoad := true);
    assert r == StampedRoad(node.id, mainRoad.id);
    var (built, builtRoad) := env.buildRoad(mainRoad, r);
    if built != 0 {
      return None;
    }
    r := builtRoad;
    var (added, withObjects) := env.addObjects(mainRoad, r);
    if added != 0 {
      return None;
    }
    r := withObjects;
    if node.elevationProfile.Some? {
      var eps := AssemblePoints(r.elevationProfiles, r.length, node.elevationProfile.value);
      var a := new ElevationProfile[|eps|](k requires 0 <= k < |eps| => eps[k]);
      assert a[..] == eps;
      SortKeyPoints(a);
      r := r.(elevationProfiles := a[..]);
    }
    return Some(r);
  }

  /**
   * connectingRoad: the segment counter goes up on every call. A missing road
   * child or a failing buildRoad or addObjects gives 1 and leaves the roads
   * alone. Otherwise the built road is appended, with its key points, when an
   * elevation profile is declared, replaced by the assembled list sorted by
   * offset, and 0 is returned. Nothing else of the network changes here.
   */
  method Generate(node: SegmentNode, data: RoadNetwork, env: Env) returns (status: int)
    modifies data
    ensures data.nSegment == old(data.nSegment) + 1
    ensures data.file == old(data.file) && data.junctions == old(data.junctions) && data.controller == old(data.controller)
    ensures data.nSignal == old(data.nSignal) && data.outputFile == old(data.outputFile)
    ensures data.versionMajor == old(data.versionMajor) && data.versionMinor == old(data.versionMinor)
    ensures status == 0 || status == 1
    ensures status == 1 <==> node.road.None? || BuiltRoad(node.id, node.road.value, env).None?
    ensures status == 1 ==> data.roads == old(data.roads)
    ensures status == 0 ==>
      && |data.roads| == |old(data.roads)| + 1
      && data.roads[..|old(data.roads)|] == old(data.roads)
      && Finished(data.roads[|data.roads| - 1], BuiltRoad(node.id, node.road.value, env).value, node.elevationProfile)
  {
    data.nSegment := data.nSegment + 1;
    if node.road.None? {
      return 1;
    }
    var res := MakeRoad(node, node.road.value, env);
    if res.None? {
      return 1;
    }
    data.roads := data.roads + [res.value];
    assert data.roads[..|old(data.roads)|] == old(data.roads);
    return 0;
  }
}
