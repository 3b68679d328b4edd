// Elevation blending of src/generation/elevation.h.
//
// Between two consecutive key points p1 = (o1, y1, r1) and p2 = (o2, y2, r2)
// the generator emits three polynomials in closed form: a quadratic clamp
// with its apex at p1, a straight connector tangent to it, and a quadratic
// clamp with its apex at p2. Arithmetic is over `real`; the square root of the
// library is the parameter `sqrt`, and the facts that need it assume only
// that it is a square root at the one point where it is used.

module Elevation {
  import opened Interface

  // ---------------------------------------------------------------------------
  // Closed-form pieces

  /** The value a + b x + c x^2 + d x^3 of a cubic. */
  function Poly3(x: real, a: real, b: real, c: real, d: real): (y: real)
    ensures x == 0.0 ==> y == a
  {
    a + b * x + c * x * x + d * x * x * x
  }

  /** The derivative b + 2 c x + 3 d x^2 of the cubic a + b x + c x^2 + d x^3. */
  function Poly3Derivation(x: real, b: real, c: real, d: real): (y: real)
    ensures x == 0.0 ==> y == b
  {
    b + 2.0 * c * x + 3.0 * d * x * x
  }

  /**
   * Poly3Derivation is the slope of Poly3: the change of the cubic over a step h
   * is h times the derivative plus terms of order h^2 and h^3.
   */
  lemma Poly3DerivationIsSlope(x: real, h: real, a: real, b: real, c: real, d: real)
    ensures Poly3(x + h, a, b, c, d) - Poly3(x, a, b, c, d)
         == h * Poly3Derivation(x, b, c, d) + h * h * (c + 3.0 * d * x) + d * h * h * h
  {
    assert (x + h) * (x + h) == x * x + 2.0 * x * h + h * h;
    assert (x + h) * (x + h) * (x + h) == x * x * x + 3.0 * x * x * h + 3.0 * x * h * h + h * h * h;
  }

  /** The curvature coefficient of a clamp of the given blend radius. */
  function GetCFromRadius(radius: real): (c: real)
    requires radius != 0.0
    ensures 2.0 * radius * c == 1.0
    ensures c > 0.0 <==> radius > 0.0
  {
    1.0 / (2.0 * radius)
  }

  /** The discriminant `sq` under the square root of the cut-off formula. */
  function Discriminant(c1: real, c2: real, o1: real, o2: real, y1: real, y2: real): real {
    c1 * c1 * c2 * c2 * (2.0 * o1 - 2.0 * o2) * (2.0 * o1 - 2.0 * o2) + 4.0 * c1 * c2 * (c2 - c1) * (y1 - y2)
  }

  predicate IsSqrtAt(sqrt: real -> real, x: real) {
    sqrt(x) >= 0.0 && sqrt(x) * sqrt(x) == x
  }

  /**
   * The offset, from p1, of the point where the start clamp hands over to the
   * connector. When the square root is exact, it is a root of
   * c1 (c1 - c2) x^2 + 2 c1 c2 (o2 - o1) x + c2 (y1 - y2) = 0, the equation
   * that makes the connector meet the end clamp.
   */
  function GetX1CutOff(c1: real, c2: real, o1: real, o2: real, y1: real, y2: real, sqrt: real -> real): (x1: real)
    requires c1 != 0.0 && c2 != c1
    ensures IsSqrtAt(sqrt, Discriminant(c1, c2, o1, o2, y1, y2)) ==>
      c1 * (c1 - c2) * x1 * x1 + 2.0 * c1 * c2 * (o2 - o1) * x1 + c2 * (y1 - y2) == 0.0
  {
    var bot := 2.0 * c1 * (c2 - c1);
    var sq := Discriminant(c1, c2, o1, o2, y1, y2);
    var x1 := (sqrt(sq) - c1 * c2 * (2.0 * o1 - 2.0 * o2)) / bot;
    if IsSqrtAt(sqrt, sq) then CutOffIsRoot(c1, c2, o1, o2, y1, y2, sqrt(sq), x1); x1 else x1
  }

  /** x1 = -(root + qb) / (2 qa), with root a square root of the discriminant, solves qa x^2 + qb x + qc = 0. */
  lemma QuadraticRoot(qa: real, qb: real, qc: real, root: real, x1: real)
    requires qa != 0.0
    requires root * root == qb * qb - 4.0 * qa * qc
    requires 2.0 * qa * x1 == -(root + qb)
    ensures qa * x1 * x1 + qb * x1 + qc == 0.0
  {
    var u := 2.0 * qa * x1;
    assert 4.0 * qa * (qa * x1 * x1 + qb * x1 + qc) == u * u + 2.0 * qb * u + 4.0 * qa * qc;
    assert u * u + 2.0 * qb * u == root * root - qb * qb;
  }

  lemma CutOffIsRoot(c1: real, c2: real, o1: real, o2: real, y1: real, y2: real, root: real, x1: real)
    requires c1 != 0.0 && c2 != c1
    requires root * root == Discriminant(c1, c2, o1, o2, y1, y2)
    requires x1 * (2.0 * c1 * (c2 - c1)) == root - c1 * c2 * (2.0 * o1 - 2.0 * o2)
    ensures c1 * (c1 - c2) * x1 * x1 + 2.0 * c1 * c2 * (o2 - o1) * x1 + c2 * (y1 - y2) == 0.0
  {
    DiscriminantOfQuadratic(c1, c2, o1, o2, y1, y2);
    CutOffSolvesLinear(c1, c2, o1, o2, root, x1);
    QuadraticRoot(c1 * (c1 - c2), 2.0 * c1 * c2 * (o2 - o1), c2 * (y1 - y2), root, x1);
  }

  lemma DiscriminantOfQuadratic(c1: real, c2: real, o1: real, o2: real, y1: real, y2: real)
    ensures Discriminant(c1, c2, o1, o2, y1, y2)
         == (2.0 * c1 * c2 * (o2 - o1)) * (2.0 * c1 * c2 * (o2 - o1)) - 4.0 * (c1 * (c1 - c2)) * (c2 * (y1 - y2))
  {
  }

  lemma CutOffSolvesLinear(c1: real, c2: real, o1: real, o2: real, root: real, x1: real)
    requires x1 * (2.0 * c1 * (c2 - c1)) == root - c1 * c2 * (2.0 * o1 - 2.0 * o2)
    ensures 2.0 * (c1 * (c1 - c2)) * x1 == -(root + 2.0 * c1 * c2 * (o2 - o1))
  {
  }

  /** The hand-over offset from p2 of the end clamp: where its slope equals the start clamp's at x1. */
  function GetX2CutOffFromX1(x1: real, c1: real, c2: real): (x2: real)
    requires c2 != 0.0
    ensures c2 * x2 == c1 * x1
  {
    c1 * x1 / c2
  }

  /** The coefficients of a + c (x + o)^2 written as sa + sb x + sc x^2. */
  function Shifted(a: real, c: real, o: real): (real, real, real) {
    (a + c * o * o, 2.0 * c * o, c)
  }

  lemma ShiftedIdentity(a: real, c: real, o: real, x: real)
    ensures var (sa, sb, sc) := Shifted(a, c, o); Poly3(x, sa, sb, sc, 0.0) == a + c * (x + o) * (x + o)
  {
    assert (x + o) * (x + o) == x * x + 2.0 * o * x + o * o;
  }

  /** shift_polynom: moves the parabola a + c x^2 by o along the x axis. */
  method ShiftPolynom(a: real, c: real, o: real) returns (sa: real, sb: real, sc: real)
    ensures (sa, sb, sc) == Shifted(a, c, o)
    ensures forall x :: Poly3(x, sa, sb, sc, 0.0) == a + c * (x + o) * (x + o)
  {
    sa := a + c * o * o;
    sb := 2.0 * c * o;
    sc := c;
    forall x ensures Poly3(x, sa, sb, sc, 0.0) == a + c * (x + o) * (x + o) {
      ShiftedIdentity(a, c, o, x);
    }
  }

  // ---------------------------------------------------------------------------
  // One stretch between two key points

  /** Value of a profile polynomial at arc length s (it is evaluated at s minus its start). */
  function Eval(p: ElevationPolynom, s: real): real {
    Poly3(s - p.s, p.a, p.b, p.c, p.d)
  }

  /** Slope of a profile polynomial at arc length s. */
  function Slope(p: ElevationPolynom, s: real): real {
    Poly3Derivation(s - p.s, p.b, p.c, p.d)
  }

  /** Both blend radii are non-zero, so their curvatures exist. */
  predicate HasCurvatures(p1: ElevationProfile, p2: ElevationProfile) {
    p1.radius != 0.0 && p2.radius != 0.0
  }

  /**
   * The signed clamp curvatures of a stretch: the clamp at the higher point is
   * turned downwards (its c negated); on equal heights the end clamp is.
   */
  function Curvatures(p1: ElevationProfile, p2: ElevationProfile): (cs: (real, real))
    requires HasCurvatures(p1, p2)
    ensures cs.0 * cs.0 == GetCFromRadius(p1.radius) * GetCFromRadius(p1.radius)
    ensures cs.1 * cs.1 == GetCFromRadius(p2.radius) * GetCFromRadius(p2.radius)
    ensures cs.0 * cs.1 == -(GetCFromRadius(p1.radius) * GetCFromRadius(p2.radius))
  {
    var c1 := GetCFromRadius(p1.radius);
    var c2 := GetCFromRadius(p2.radius);
    if p1.tOffset > p2.tOffset then (-c1, c2) else (c1, -c2)
  }

  /** The divisions of the blend are all by non-zero values. */
  predicate Blendable(p1: ElevationProfile, p2: ElevationProfile) {
    HasCurvatures(p1, p2) && Curvatures(p1, p2).0 != Curvatures(p1, p2).1
  }

  /**
   * With positive radii the clamps open towards each other: the clamp at the
   * higher end bends down, the one at the lower end bends up, and the stretch
   * can be blended.
   */
  lemma ClampsOpenTowardEachOther(p1: ElevationProfile, p2: ElevationProfile)
    requires p1.radius > 0.0 && p2.radius > 0.0
    ensures Blendable(p1, p2)
    ensures p1.tOffset > p2.tOffset ==> Curvatures(p1, p2).0 < 0.0 && Curvatures(p1, p2).1 > 0.0
    ensures p1.tOffset <= p2.tOffset ==> Curvatures(p1, p2).0 > 0.0 && Curvatures(p1, p2).1 < 0.0
  {
  }

  /** The hand-over offsets x1 (from p1) and x2 (from p2) of a stretch. */
  function CutOffs(p1: ElevationProfile, p2: ElevationProfile, sqrt: real -> real): (real, real)
    requires Blendable(p1, p2)
  {
    var (c1, c2) := Curvatures(p1, p2);
    var x1 := GetX1CutOff(c1, c2, p1.sOffset, p2.sOffset, p1.tOffset, p2.tOffset, sqrt);
    (x1, GetX2CutOffFromX1(x1, c1, c2))
  }

  /** The start clamp: apex at p1 = (o1, y1), curvature coefficient c1. */
  function StartClamp(o1: real, y1: real, c1: real): ElevationPolynom {
    ElevationPolynom(y1, 0.0, c1, 0.0, o1)
  }

  /** The connector: the tangent of the start clamp at o1 + x1. */
  function Connector(o1: real, y1: real, c1: real, x1: real): ElevationPolynom {
    ElevationPolynom(Poly3(x1, y1, 0.0, c1, 0.0), Poly3Derivation(x1, 0.0, c1, 0.0), 0.0, 0.0, o1 + x1)
  }

  /** The end clamp: the parabola with apex at p2 = (o2, y2), started at o2 + x2. */
  function EndClamp(o2: real, y2: real, c2: real, x2: real): ElevationPolynom {
    var (sa, sb, sc) := Shifted(y2, c2, x2);
    ElevationPolynom(sa, sb, sc, 0.0, o2 + x2)
  }

  /** The three polynomials one iteration of generateElevationProfile appends for the stretch p1 -> p2. */
  function BlendPair(p1: ElevationProfile, p2: ElevationProfile, sqrt: real -> real): (polys: seq<ElevationPolynom>)
    requires Blendable(p1, p2)
    ensures |polys| == 3 && polys[0].s == p1.sOffset
    ensures polys[0].d == 0.0 && polys[1].c == 0.0 && polys[1].d == 0.0 && polys[2].d == 0.0
  {
    var (c1, c2) := Curvatures(p1, p2);
    var (x1, x2) := CutOffs(p1, p2, sqrt);
    [ StartClamp(p1.sOffset, p1.tOffset, c1),
      Connector(p1.sOffset, p1.tOffset, c1, x1),
      EndClamp(p2.sOffset, p2.tOffset, c2, x2) ]
  }

  /** The start clamp leaves p1 level, and the connector continues it with equal value and slope. */
  lemma StartClampToConnector(o1: real, y1: real, c1: real, x1: real)
    ensures Eval(StartClamp(o1, y1, c1), o1) == y1 && Slope(StartClamp(o1, y1, c1), o1) == 0.0
    ensures var s := o1 + x1;
      Eval(StartClamp(o1, y1, c1), s) == Eval(Connector(o1, y1, c1, x1), s) &&
      Slope(StartClamp(o1, y1, c1), s) == Slope(Connector(o1, y1, c1, x1), s)
  {
    assert (o1 + x1) - o1 == x1;
  }

  /** The end clamp arrives level at p2, and starts with slope 2 c2 x2. */
  lemma EndClampShape(o2: real, y2: real, c2: real, x2: real)
    ensures Eval(EndClamp(o2, y2, c2, x2), o2) == y2 && Slope(EndClamp(o2, y2, c2, x2), o2) == 0.0
    ensures Eval(EndClamp(o2, y2, c2, x2), o2 + x2) == y2 + c2 * x2 * x2
    ensures Slope(EndClamp(o2, y2, c2, x2), o2 + x2) == 2.0 * c2 * x2
  {
    var e := EndClamp(o2, y2, c2, x2);
    assert e.a == y2 + c2 * x2 * x2 && e.b == 2.0 * c2 * x2 && e.c == c2 && e.d == 0.0;
    assert o2 - e.s == -x2;
    assert Eval(e, o2) == y2 + c2 * x2 * x2 + 2.0 * c2 * x2 * (-x2) + c2 * (-x2) * (-x2);
  }

  /** Along the connector: value y1 + c1 x1^2 + 2 c1 x1 (s - o1 - x1), slope 2 c1 x1 everywhere. */
  lemma ConnectorLine(o1: real, y1: real, c1: real, x1: real, s: real)
    ensures Eval(Connector(o1, y1, c1, x1), s) == y1 + c1 * x1 * x1 + 2.0 * c1 * x1 * (s - (o1 + x1))
    ensures Slope(Connector(o1, y1, c1, x1), s) == 2.0 * c1 * x1
  {
  }

  /**
   * The stretch is smooth where it can be: the start clamp leaves p1 level at
   * p1's height; the connector takes over from the start clamp with the same
   * value and slope; the end clamp takes over from the connector with the same
   * slope; and the end clamp arrives level at p2's height.
   */
  lemma BlendPairIsSmooth(p1: ElevationProfile, p2: ElevationProfile, sqrt: real -> real)
    requires Blendable(p1, p2)
    ensures var b := BlendPair(p1, p2, sqrt);
      && |b| == 3
      && b[0].s == p1.sOffset && Eval(b[0], p1.sOffset) == p1.tOffset && Slope(b[0], p1.sOffset) == 0.0
      && b[1].s == p1.sOffset + CutOffs(p1, p2, sqrt).0
      && Eval(b[0], b[1].s) == Eval(b[1], b[1].s) && Slope(b[0], b[1].s) == Slope(b[1], b[1].s)
      && b[2].s == p2.sOffset + CutOffs(p1, p2, sqrt).1
      && Slope(b[1], b[2].s) == Slope(b[2], b[2].s)
      && Eval(b[2], p2.sOffset) == p2.tOffset && Slope(b[2], p2.sOffset) == 0.0
  {
    var cs := Curvatures(p1, p2);
    var xs := CutOffs(p1, p2, sqrt);
    var o1, o2, y1, y2 := p1.sOffset, p2.sOffset, p1.tOffset, p2.tOffset;
    var c1, c2, x1, x2 := cs.0, cs.1, xs.0, xs.1;
    assert BlendPair(p1, p2, sqrt) == [StartClamp(o1, y1, c1), Connector(o1, y1, c1, x1), EndClamp(o2, y2, c2, x2)];
    StartClampToConnector(o1, y1, c1, x1);
    EndClampShape(o2, y2, c2, x2);
    ConnectorLine(o1, y1, c1, x1, o2 + x2);
    assert c2 * x2 == c1 * x1;
  }

  /**
   * When the square root is exact, the connector also ends on the end clamp:
   * the two meet with the same value where the end clamp starts.
   */
  lemma BlendPairMeetsEndClamp(p1: ElevationProfile, p2: ElevationProfile, sqrt: real -> real)
    requires Blendable(p1, p2)
    requires IsSqrtAt(sqrt, Discriminant(Curvatures(p1, p2).0, Curvatures(p1, p2).1, p1.sOffset, p2.sOffset, p1.tOffset, p2.tOffset))
    ensures var b := BlendPair(p1, p2, sqrt); Eval(b[1], b[2].s) == Eval(b[2], b[2].s)
  {
    CutOffsSolve(p1, p2, sqrt);
    PiecesMeet(Curvatures(p1, p2).0, Curvatures(p1, p2).1, p1.sOffset, p2.sOffset, p1.tOffset, p2.tOffset,
               CutOffs(p1, p2, sqrt).0, CutOffs(p1, p2, sqrt).1);
  }

  /** The hand-over offsets of a stretch solve the cut-off equations when the square root is exact. */
  lemma CutOffsSolve(p1: ElevationProfile, p2: ElevationProfile, sqrt: real -> real)
    requires Blendable(p1, p2)
    requires IsSqrtAt(sqrt, Discriminant(Curvatures(p1, p2).0, Curvatures(p1, p2).1, p1.sOffset, p2.sOffset, p1.tOffset, p2.tOffset))
    ensures SolvesCutOff(Curvatures(p1, p2).0, Curvatures(p1, p2).1, p1.sOffset, p2.sOffset, p1.tOffset, p2.tOffset,
                         CutOffs(p1, p2, sqrt).0, CutOffs(p1, p2, sqrt).1)
  {
  }

  /**
   * The hand-over offsets x1 and x2 of a stretch between (o1, y1) and (o2, y2):
   * equal slopes at the hand-over points, and x1 a root of the cut-off equation.
   */
  predicate SolvesCutOff(c1: real, c2: real, o1: real, o2: real, y1: real, y2: real, x1: real, x2: real) {
    && c2 != 0.0 && c2 * x2 == c1 * x1
    && c1 * (c1 - c2) * x1 * x1 + 2.0 * c1 * c2 * (o2 - o1) * x1 + c2 * (y1 - y2) == 0.0
  }

  /** The connector ends on the end clamp when x1 solves the cut-off equation. */
  lemma PiecesMeet(c1: real, c2: real, o1: real, o2: real, y1: real, y2: real, x1: real, x2: real)
    requires SolvesCutOff(c1, c2, o1, o2, y1, y2, x1, x2)
    ensures Eval(Connector(o1, y1, c1, x1), o2 + x2) == Eval(EndClamp(o2, y2, c2, x2), o2 + x2)
  {
    EndClampShape(o2, y2, c2, x2);
    ConnectorLine(o1, y1, c1, x1, o2 + x2);
    ConnectorMeetsEndClamp(c1, c2, o1, o2, y1, y2, x1, x2);
  }

  /** The value-matching step: a root of the cut-off equation makes the connector end on the end clamp. */
  lemma ConnectorMeetsEndClamp(c1: real, c2: real, o1: real, o2: real, y1: real, y2: real, x1: real, x2: real)
    requires c2 != 0.0
    requires c2 * x2 == c1 * x1
    requires c1 * (c1 - c2) * x1 * x1 + 2.0 * c1 * c2 * (o2 - o1) * x1 + c2 * (y1 - y2) == 0.0
    ensures y1 + c1 * x1 * x1 + 2.0 * c1 * x1 * ((o2 + x2) - (o1 + x1)) == y2 + c2 * x2 * x2
  {
    var lhs := y1 + c1 * x1 * x1 + 2.0 * c1 * x1 * ((o2 + x2) - (o1 + x1));
    var rhs := y2 + c2 * x2 * x2;
    assert c2 * (2.0 * c1 * x1 * x2) == 2.0 * c1 * x1 * (c1 * x1);
    assert c2 * (c2 * x2 * x2) == (c1 * x1) * (c1 * x1);
    assert c2 * (lhs - rhs)
        == c2 * (y1 - y2) + c1 * c2 * x1 * x1 + 2.0 * c1 * c2 * x1 * (o2 - o1)
           + c2 * (2.0 * c1 * x1 * x2) - 2.0 * c1 * c2 * x1 * x1 - c2 * (c2 * x2 * x2);
    assert c2 * (lhs - rhs) == 0.0;
  }

  // ---------------------------------------------------------------------------
  // generateElevationProfile

  /** A key point with polynomials appended to its output list. */
  function WithOutput(p: ElevationProfile, polys: seq<ElevationPolynom>): ElevationProfile {
    p.(outputElevation := p.outputElevation + polys)
  }

  /**
   * Every key point but the last gets the three polynomials of the stretch it
   * starts, appended to what it already had, in order; the last key point is
   * untouched; the result is 0. A list with no key point is left out: the
   * source's bound `size() - 1` wraps around for it.
   */
  method GenerateElevationProfile(eps: array<ElevationProfile>, sqrt: real -> real) returns (status: int)
    requires eps.Length >= 1
    requires forall i :: 0 <= i < eps.Length - 1 ==> Blendable(eps[i], eps[i + 1])
    modifies eps
    ensures status == 0
    ensures eps[eps.Length - 1] == old(eps[eps.Length - 1])
    ensures forall i :: 0 <= i < eps.Length - 1 ==>
      eps[i] == WithOutput(old(eps[i]), BlendPair(old(eps[i]), old(eps[i + 1]), sqrt))
  {
    var i := 0;
    while i < eps.Length - 1
      invariant 0 <= i <= eps.Length - 1
      invariant forall k :: 0 <= k < i ==>
        eps[k] == WithOutput(old(eps[k]), BlendPair(old(eps[k]), old(eps[k + 1]), sqrt))
      invariant forall k :: i <= k < eps.Length ==> eps[k] == old(eps[k])
    {
      var polys := BlendStretch(eps[i], eps[i + 1], sqrt);
      eps[i] := eps[i].(outputElevation := eps[i].outputElevation + polys);
      i := i + 1;
    }
    status := 0;
  }

  /** The three polynomials of the stretch from p1 to p2, computed step by step as the loop body does. */
  method BlendStretch(p1: ElevationProfile, p2: ElevationProfile, sqrt: real -> real) returns (polys: seq<ElevationPolynom>)
    requires Blendable(p1, p2)
    ensures polys == BlendPair(p1, p2, sqrt)
  {
    var o1, o2 := p1.sOffset, p2.sOffset;
    var y1, y2 := p1.tOffset, p2.tOffset;
    var c1 := GetCFromRadius(p1.radius);
    var c2 := GetCFromRadius(p2.radius);
    if y1 > y2 {
      c1 := -c1;
    } else {
      c2 := -c2;
    }
    assert (c1, c2) == Curvatures(p1, p2);
    var x1 := GetX1CutOff(c1, c2, o1, o2, y1, y2, sqrt);
    var x2 := GetX2CutOffFromX1(x1, c1, c2);
    assert (x1, x2) == CutOffs(p1, p2, sqrt);
    var startPoly := ElevationPolynom(y1, 0.0, c1, 0.0, o1);
    var linePoly := ElevationPolynom(Poly3(x1, y1, 0.0, c1, 0.0), Poly3Derivation(x1, 0.0, c1, 0.0), 0.0, 0.0, o1 + x1);
    var sa, sb, sc := ShiftPolynom(y2, c2, x2);
    var resPoly := ElevationPolynom(sa, sb, sc, 0.0, o2 + x2);
    assert startPoly == StartClamp(o1, y1, c1) && linePoly == Connector(o1, y1, c1, x1);
    assert resPoly == EndClamp(o2, y2, c2, x2);
    polys := [startPoly, linePoly, resPoly];
  }

  // ---------------------------------------------------------------------------
  // Sanity checks of generateElevationProfiles

  /** The first key point lies at or after the road start and the last at or before its end. */
  predicate WithinRoad(r: Road)
    requires |r.elevationProfiles| >= 1
  {
    r.elevationProfiles[0].sOffset >= 0.0 &&
    r.elevationProfiles[|r.elevationProfiles| - 1].sOffset <= r.length
  }

  /** One warning per pair of consecutive key points that share an offset, in list order. */
  function DuplicateWarnings(r: Road): (ws: seq<(int, int)>)
    ensures |ws| == DuplicateCount(r.elevationProfiles, |r.elevationProfiles| - 1)
    ensures forall w :: w in ws ==> w == (r.inputSegmentId, r.inputId)
  {
    Repeat((r.inputSegmentId, r.inputId), DuplicateCount(r.elevationProfiles, |r.elevationProfiles| - 1))
  }

  function Repeat<T>(x: T, n: nat): (xs: seq<T>)
    ensures |xs| == n && forall y :: y in xs ==> y == x
  {
    if n == 0 then [] else Repeat(x, n - 1) + [x]
  }

  /** The number of i < bound with eps[i] and eps[i+1] at the same offset. */
  function DuplicateCount(eps: seq<ElevationProfile>, bound: int): nat
    requires bound <= |eps| - 1
    decreases if bound < 0 then 0 else bound
  {
    if bound <= 0 then 0
    else DuplicateCount(eps, bound - 1) + (if eps[bound - 1].sOffset == eps[bound].sOffset then 1 else 0)
  }

  /** No two consecutive key points below `bound` share an offset exactly when none is counted. */
  lemma {:induction false} DuplicateCountZero(eps: seq<ElevationProfile>, bound: int)
    requires bound <= |eps| - 1
    ensures DuplicateCount(eps, bound) == 0 <==> forall i :: 0 <= i < bound ==> eps[i].sOffset != eps[i + 1].sOffset
    decreases if bound < 0 then 0 else bound
  {
    if bound > 0 {
      DuplicateCountZero(eps, bound - 1);
    }
  }

  /** The index of the first road that fails the bounds check, or |roads| when none does. */
  function FirstOutOfBounds(roads: seq<Road>): (k: nat)
    requires forall r :: r in roads ==> |r.elevationProfiles| >= 1
    ensures k <= |roads|
    ensures forall i :: 0 <= i < k ==> WithinRoad(roads[i])
    ensures k < |roads| ==> !WithinRoad(roads[k])
  {
    if roads == [] then 0
    else if !WithinRoad(roads[0]) then 0
    else 1 + FirstOutOfBounds(roads[1..])
  }

  /** The scan stops at k when every road before k passes and k is the end or a failing road. */
  lemma FirstOutOfBoundsAt(roads: seq<Road>, k: nat)
    requires forall r :: r in roads ==> |r.elevationProfiles| >= 1
    requires k <= |roads| && forall j :: 0 <= j < k ==> WithinRoad(roads[j])
    requires k < |roads| ==> !WithinRoad(roads[k])
    ensures FirstOutOfBounds(roads) == k
    ensures k < |roads| <==> exists r :: r in roads && !WithinRoad(r)
  {
    if k == |roads| {
      forall r | r in roads ensures WithinRoad(r) {
        var j :| 0 <= j < |roads| && roads[j] == r;
      }
    } else {
      assert roads[k] in roads;
    }
  }

  /** The warnings of the roads scanned before the scan stops, each scanned as the source does. */
  function WarningsOf(roads: seq<Road>): seq<(int, int)>
    requires forall r :: r in roads ==> |r.elevationProfiles| >= 2
  {
    if roads == [] then [] else WarningsOf(roads[..|roads| - 1]) + DuplicateWarningsAsWritten(roads[|roads| - 1])
  }

  /**
   * The roads the sanity check reaches with its duplicate scan, those before
   * the first road failing the bounds check, carry at least two key points.
   */
  predicate ScannedHaveTwoPoints(roads: seq<Road>)
    requires forall r :: r in roads ==> |r.elevationProfiles| >= 1
  {
    forall i :: 0 <= i < FirstOutOfBounds(roads) ==> |roads[i].elevationProfiles| >= 2
  }

  /**
   * The duplicate scan over one road's key points as the source runs it: a
   * warning per consecutive pair at the same offset among all but the last pair.
   */
  method ScanDuplicates(r: Road) returns (found: seq<(int, int)>)
    requires |r.elevationProfiles| >= 2
    ensures found == DuplicateWarningsAsWritten(r)
  {
    var eps := r.elevationProfiles;
    var i := 0;
    found := [];
    while i < |eps| - 2
      invariant 0 <= i <= |eps| - 2
      invariant found == Repeat((r.inputSegmentId, r.inputId), DuplicateCount(eps, i))
    {
      if eps[i].sOffset == eps[i + 1].sOffset {
        found := found + [(r.inputSegmentId, r.inputId)];
      }
      i := i + 1;
    }
  }

  /**
   * The sanity check: status 1 exactly when some road has its first key point
   * before its start or its last key point past its end; the duplicate-offset
   * warnings of every road before the first such road (all roads when there is
   * none) and only those are reported, in order, without the last pair of
   * each road. Every road is assumed to carry at least one key point (the
   * source reads the first one unguarded) and every road the duplicate scan
   * reaches at least two (the source's unsigned bound wraps around on one).
   */
  method CheckElevationProfiles(roads: seq<Road>) returns (status: int, warnings: seq<(int, int)>)
    requires forall r :: r in roads ==> |r.elevationProfiles| >= 1
    requires ScannedHaveTwoPoints(roads)
    ensures status == 0 || status == 1
    ensures status == 1 <==> exists r :: r in roads && !WithinRoad(r)
    ensures warnings == WarningsOf(roads[..FirstOutOfBounds(roads)])
  {
    warnings := [];
    var k := 0;
    while k < |roads|
      invariant 0 <= k <= |roads|
      invariant forall j :: 0 <= j < k ==> WithinRoad(roads[j])
      invariant k <= FirstOutOfBounds(roads)
      invariant warnings == WarningsOf(roads[..k])
    {
      var r := roads[k];
      var eps := r.elevationProfiles;
      if eps[0].sOffset < 0.0 || eps[|eps| - 1].sOffset > r.length {
        FirstOutOfBoundsAt(roads, k);
        return 1, warnings;
      }
      var found := ScanDuplicates(r);
      assert roads[..k + 1][..k] == roads[..k];
      warnings := warnings + found;
      k := k + 1;
    }
    assert roads[..k] == roads;
    FirstOutOfBoundsAt(roads, k);
    return 0, warnings;
  }

  /** What generateElevationProfiles does in the part this model covers. */
  datatype ProfilesOutcome =
    | Invalid          // a road failed the bounds check: returns 1
    | NoLinks          // no `links` element: returns 0 and generates nothing
    | EntersLinking    // the unfinished network-linking block, not modelled

  /**
   * The sanity checks come first; only when they pass does the presence of a
   * `links` element matter. Without it, the function returns 0 before
   * generating any polynomial, so the network is left as it was.
   */
  method GenerateElevationProfiles(data: RoadNetwork, hasLinks: bool) returns (outcome: ProfilesOutcome, warnings: seq<(int, int)>)
    requires forall r :: r in data.roads ==> |r.elevationProfiles| >= 1
    requires ScannedHaveTwoPoints(data.roads)
    ensures outcome == Invalid <==> exists r :: r in data.roads && !WithinRoad(r)
    ensures outcome == NoLinks <==> (forall r :: r in data.roads ==> WithinRoad(r)) && !hasLinks
    ensures outcome == EntersLinking <==> (forall r :: r in data.roads ==> WithinRoad(r)) && hasLinks
    ensures warnings == WarningsOf(data.roads[..FirstOutOfBounds(data.roads)])
  {
    var status;
    status, warnings := CheckElevationProfiles(data.roads);
    if status != 0 {
      return Invalid, warnings;
    }
    if !hasLinks {
      return NoLinks, warnings;
    }
    return EntersLinking, warnings;
  }

  // ---------------------------------------------------------------------------
  // The duplicate scan as written

  /**
   * The bound of the source's duplicate scan, size() - 2 on an unsigned 64-bit
   * size: it skips the last pair, and on fewer than two key points it wraps
   * around (to 2^64 - 1 for one). Sizes are below 2^64.
   */
  function DuplicateScanBoundAsWritten(n: nat): nat {
    if n >= 2 then n - 2 else 0x1_0000_0000_0000_0000 + n - 2
  }

  /** The warnings of the source's duplicate scan: consecutive pairs below the written bound. */
  function DuplicateWarningsAsWritten(r: Road): (ws: seq<(int, int)>)
    requires |r.elevationProfiles| >= 2
    ensures |ws| == DuplicateCount(r.elevationProfiles, |r.elevationProfiles| - 2)
    ensures forall w :: w in ws ==> w == (r.inputSegmentId, r.inputId)
  {
    Repeat((r.inputSegmentId, r.inputId), DuplicateCount(r.elevationProfiles, DuplicateScanBoundAsWritten(|r.elevationProfiles|)))
  }

  /**
   * Key points at offsets 0, 5 and 5 repeat an offset, but only in their last
   * pair: the scan as written reports nothing, the full scan reports it; and a
   * single key point makes the written bound larger than any index of the list.
   */
  lemma DuplicateScanMissesLastPair()
    ensures var r := DefaultRoad().(length := 10.0, elevationProfiles := [
                ElevationProfile(0.0, 0.0, 1.0, [], 0),
                ElevationProfile(5.0, 1.0, 1.0, [], 1),
                ElevationProfile(5.0, 1.0, 1.0, [], 2)]);
      DuplicateWarningsAsWritten(r) == [] && |DuplicateWarnings(r)| == 1
    ensures DuplicateScanBoundAsWritten(1) == 0xFFFF_FFFF_FFFF_FFFF
  {
    var eps := [ElevationProfile(0.0, 0.0, 1.0, [], 0), ElevationProfile(5.0, 1.0, 1.0, [], 1), ElevationProfile(5.0, 1.0, 1.0, [], 2)];
    assert DuplicateCount(eps, 1) == 0;
    assert DuplicateCount(eps, 2) == 1;
  }

  /**
   * The scan as written reports what the full scan reports, less one warning
   * exactly when the last two key points share an offset.
   */
  lemma AsWrittenSkipsOnlyLastPair(r: Road)
    requires |r.elevationProfiles| >= 2
    ensures var eps := r.elevationProfiles;
      DuplicateWarnings(r) == DuplicateWarningsAsWritten(r)
        + (if eps[|eps| - 2].sOffset == eps[|eps| - 1].sOffset then [(r.inputSegmentId, r.inputId)] else [])
  {
  }
}
