/**
 * Geometry primitives of the simulation (script.js, getLineIntersection,
 * distance and the circle test of TrafficLight.getIntersection).
 * Coordinates are exact reals; Math.hypot is replaced by the squared distance,
 * which orders non-negative distances the same way, and Math.sqrt is a
 * function the caller supplies.
 */
module Geometry {
  import opened Wrappers

  datatype Point = Point(x: real, y: real)

  /** A segment from `a` to `b`; also used for a ray cast from `a` to its end `b`. */
  datatype Segment = Segment(a: Point, b: Point)

  function Min(u: real, v: real): (m: real) { if u <= v then u else v }
  function Max(u: real, v: real): (m: real) { if u <= v then v else u }

  /** Squared Euclidean distance. */
  function DistSq(p: Point, q: Point): (d: real)
    ensures d >= 0.0
  {
    (q.x - p.x) * (q.x - p.x) + (q.y - p.y) * (q.y - p.y)
  }

  // ---------------------------------------------------------------------------
  // Segment against segment

  /** A line written a*x + b*y == c. */
  datatype Line = Line(a: real, b: real, c: real)

  /** The line through a segment, with the coefficients getLineIntersection uses. */
  function LineOf(s: Segment): (l: Line)
    ensures l.a * s.a.x + l.b * s.a.y == l.c
    ensures l.a * s.b.x + l.b * s.b.y == l.c
  {
    var a := s.b.y - s.a.y;
    var b := s.a.x - s.b.x;
    Line(a, b, a * s.a.x + b * s.a.y)
  }

  predicate OnLine(s: Segment, p: Point) {
    var l := LineOf(s);
    l.a * p.x + l.b * p.y == l.c
  }

  /** Inside the segment's axis-aligned bounding box, bounds included. */
  predicate InBox(s: Segment, p: Point) {
    Min(s.a.x, s.b.x) <= p.x <= Max(s.a.x, s.b.x) &&
    Min(s.a.y, s.b.y) <= p.y <= Max(s.a.y, s.b.y)
  }

  function DetOf(l1: Line, l2: Line): real { l1.a * l2.b - l2.a * l1.b }

  function Det(s1: Segment, s2: Segment): real { DetOf(LineOf(s1), LineOf(s2)) }

  /** The crossing point of two lines by Cramer's rule. */
  function Solve(l1: Line, l2: Line): (p: Point)
    requires DetOf(l1, l2) != 0.0
  {
    Point((l2.b * l1.c - l1.b * l2.c) / DetOf(l1, l2),
          (l1.a * l2.c - l2.a * l1.c) / DetOf(l1, l2))
  }

  /** Cramer's rule: the solved point is the one point on both lines. */
  lemma Cramer(l1: Line, l2: Line, p: Point)
    requires DetOf(l1, l2) != 0.0
    ensures (l1.a * p.x + l1.b * p.y == l1.c && l2.a * p.x + l2.b * p.y == l2.c) <==> p == Solve(l1, l2)
  {
    var a1, b1, c1, a2, b2, c2, x, y := l1.a, l1.b, l1.c, l2.a, l2.b, l2.c, p.x, p.y;
    var det := a1 * b2 - a2 * b1;
    var xn := b2 * c1 - b1 * c2;
    var yn := a1 * c2 - a2 * c1;
    if a1 * x + b1 * y == c1 && a2 * x + b2 * y == c2 {
      assert xn == b2 * (a1 * x + b1 * y) - b1 * (a2 * x + b2 * y);
      assert xn == x * det;
      assert yn == a1 * (a2 * x + b2 * y) - a2 * (a1 * x + b1 * y);
      assert yn == y * det;
    }
    if x == xn / det && y == yn / det {
      assert x * det == xn && y * det == yn;
      assert (a1 * x + b1 * y) * det == a1 * xn + b1 * yn;
      assert a1 * xn + b1 * yn == c1 * det;
      assert (a2 * x + b2 * y) * det == a2 * xn + b2 * yn;
      assert a2 * xn + b2 * yn == c2 * det;
    }
  }

  /**
   * getLineIntersection: the point where the lines of two segments cross,
   * if the determinant is non-zero and the point lies in both bounding boxes.
   */
  function Intersect(s1: Segment, s2: Segment): (r: Option<Point>)
    ensures Det(s1, s2) == 0.0 ==> r == None
    ensures r.Some? ==> OnLine(s1, r.value) && OnLine(s2, r.value)
    ensures r.Some? ==> InBox(s1, r.value) && InBox(s2, r.value)
  {
    var l1, l2 := LineOf(s1), LineOf(s2);
    if DetOf(l1, l2) == 0.0 then None
    else
      var p := Solve(l1, l2);
      if InBox(s1, p) && InBox(s2, p) then
        SolveOnLines(s1, s2);
        Some(p)
      else None
  }

  /** The solved point lies on the lines of both segments. */
  lemma SolveOnLines(s1: Segment, s2: Segment)
    requires Det(s1, s2) != 0.0
    ensures OnLine(s1, Solve(LineOf(s1), LineOf(s2))) && OnLine(s2, Solve(LineOf(s1), LineOf(s2)))
  {
    var l1, l2 := LineOf(s1), LineOf(s2);
    var p := Solve(l1, l2);
    Cramer(l1, l2, p);
    assert l1.a * p.x + l1.b * p.y == l1.c && l2.a * p.x + l2.b * p.y == l2.c;
  }

  /**
   * The converse: a point on both lines and in both boxes is found, so
   * (with the ensures of Intersect) the result is non-null exactly when the
   * lines cross inside both bounding boxes.
   */
  lemma IntersectComplete(s1: Segment, s2: Segment, p: Point)
    requires Det(s1, s2) != 0.0
    requires OnLine(s1, p) && OnLine(s2, p)
    requires InBox(s1, p) && InBox(s2, p)
    ensures Intersect(s1, s2) == Some(p)
  {
    Cramer(LineOf(s1), LineOf(s2), p);
  }

  // ---------------------------------------------------------------------------
  // Segment against circle

  /** The point at parameter `t` along `s` (t = 0 at `a`, t = 1 at `b`). */
  function At(s: Segment, t: real): (p: Point) {
    Point(s.a.x + t * (s.b.x - s.a.x), s.a.y + t * (s.b.y - s.a.y))
  }

  // Coefficients of the quadratic in t whose roots are where `s` meets the circle.
  /** The squared length of the segment. */
  function QuadA(s: Segment): (a: real) {
    DistSq(s.a, s.b)
  }
  function QuadB(s: Segment, center: Point): (b: real) {
    2.0 * ((s.a.x - center.x) * (s.b.x - s.a.x) + (s.a.y - center.y) * (s.b.y - s.a.y))
  }
  function QuadC(s: Segment, center: Point, radius: real): (c: real) {
    (s.a.x - center.x) * (s.a.x - center.x) + (s.a.y - center.y) * (s.a.y - center.y) - radius * radius
  }
  function Discriminant(s: Segment, center: Point, radius: real): real {
    QuadB(s, center) * QuadB(s, center) - 4.0 * QuadA(s) * QuadC(s, center, radius)
  }

  predicate OnCircle(p: Point, center: Point, radius: real) {
    DistSq(center, p) == radius * radius
  }

  /** `sqrt` returns the true square root of the discriminant of this test. */
  predicate RootOk(s: Segment, center: Point, radius: real, sqrt: real -> real) {
    var d := Discriminant(s, center, radius);
    d >= 0.0 ==> sqrt(d) >= 0.0 && sqrt(d) * sqrt(d) == d
  }

  /**
   * The parameter of the hit chosen by TrafficLight.getIntersection: the
   * smaller root t1 when it lies in [0, 1], else the larger root t2 when it
   * does, else none. A negative discriminant gives none. When the segment
   * has length zero the source divides 0 by 0; the NaN fails every
   * comparison, so that case gives none too.
   */
  function HitParam(s: Segment, center: Point, radius: real, sqrt: real -> real): (r: Option<real>)
    ensures r.Some? ==> 0.0 <= r.value <= 1.0
    ensures s.a == s.b || Discriminant(s, center, radius) < 0.0 ==> r.None?
  {
    var a := QuadA(s);
    var b := QuadB(s, center);
    var d := Discriminant(s, center, radius);
    if d < 0.0 || a == 0.0 then None
    else PreferFirst((-b - sqrt(d)) / (2.0 * a), (-b + sqrt(d)) / (2.0 * a))
  }

  /** t1 when it lies in [0, 1], else t2 when it does, else none. */
  function PreferFirst(t1: real, t2: real): (r: Option<real>)
    ensures r.Some? ==> 0.0 <= r.value <= 1.0 && (r.value == t1 || r.value == t2)
    ensures 0.0 <= t1 <= 1.0 ==> r == Some(t1)
    ensures !(0.0 <= t1 <= 1.0) && 0.0 <= t2 <= 1.0 ==> r == Some(t2)
    ensures r.None? <==> !(0.0 <= t1 <= 1.0) && !(0.0 <= t2 <= 1.0)
    ensures t1 <= t2 && 0.0 <= t2 <= 1.0 ==> r.Some? && r.value <= t2
  {
    if 0.0 <= t1 <= 1.0 then Some(t1)
    else if 0.0 <= t2 <= 1.0 then Some(t2)
    else None
  }

  /** TrafficLight.getIntersection's geometry: the point at HitParam. */
  function RayCircle(s: Segment, center: Point, radius: real, sqrt: real -> real): (r: Option<Point>)
    ensures r.Some? <==> HitParam(s, center, radius, sqrt).Some?
    ensures r.Some? ==> r.value == At(s, HitParam(s, center, radius, sqrt).value)
  {
    match HitParam(s, center, radius, sqrt)
    case None => None
    case Some(t) => Some(At(s, t))
  }

  /** (f + t*d)^2 summed over both axes, less r^2, as a polynomial in t. */
  lemma CircleIdentity(fx: real, fy: real, dx: real, dy: real, r: real, t: real, ex: real, ey: real)
    requires ex == fx + t * dx && ey == fy + t * dy
    ensures ex * ex + ey * ey - r * r ==
            (dx * dx + dy * dy) * t * t + 2.0 * (fx * dx + fy * dy) * t + (fx * fx + fy * fy - r * r)
  {
  }

  /** How far the squared distance from the centre to the point at t is from r^2. */
  function CircleGap(s: Segment, center: Point, radius: real, t: real): real {
    DistSq(center, At(s, t)) - radius * radius
  }

  /** The quadratic in t whose roots are where the segment's line meets the circle. */
  function Quadratic(s: Segment, center: Point, radius: real, t: real): real {
    QuadA(s) * t * t + QuadB(s, center) * t + QuadC(s, center, radius)
  }

  lemma OnCircleIffNoGap(s: Segment, center: Point, radius: real, t: real)
    ensures OnCircle(At(s, t), center, radius) <==> CircleGap(s, center, radius, t) == 0.0
  {
  }

  lemma GapIsQuadratic(s: Segment, center: Point, radius: real, t: real)
    ensures CircleGap(s, center, radius, t) == Quadratic(s, center, radius, t)
  {
    CircleIdentity(s.a.x - center.x, s.a.y - center.y, s.b.x - s.a.x, s.b.y - s.a.y, radius, t,
                   At(s, t).x - center.x, At(s, t).y - center.y);
  }

  /** The point at parameter t is on the circle iff t is a root of the quadratic. */
  lemma OnCircleIffRoot(s: Segment, center: Point, radius: real, t: real)
    ensures OnCircle(At(s, t), center, radius) <==> Quadratic(s, center, radius, t) == 0.0
  {
    OnCircleIffNoGap(s, center, radius, t);
    GapIsQuadratic(s, center, radius, t);
  }

  /** With a true square root the quadratic factors through its two roots. */
  lemma Factor(a: real, b: real, c: real, root: real, t: real)
    requires a != 0.0 && root * root == b * b - 4.0 * a * c
    ensures a * t * t + b * t + c ==
            a * (t - (-b - root) / (2.0 * a)) * (t - (-b + root) / (2.0 * a))
  {
    var t1 := (-b - root) / (2.0 * a);
    var t2 := (-b + root) / (2.0 * a);
    assert t1 * (2.0 * a) == -b - root;
    assert t2 * (2.0 * a) == -b + root;
    assert (t1 + t2) * a == -b;
    assert (t1 * t2) * (4.0 * a * a) == (-b - root) * (-b + root);
    assert (-b - root) * (-b + root) == b * b - root * root;
    assert (t1 * t2) * a == c;
    calc {
      a * (t - t1) * (t - t2);
      a * t * t - (t1 + t2) * a * t + (t1 * t2) * a;
      a * t * t + b * t + c;
    }
  }

  lemma Square(x: real)
    ensures x * x >= 0.0
  {
    if x < 0.0 {
      assert x * x == (-x) * (-x);
    }
  }

  /** A root exists only if the discriminant is non-negative. */
  lemma RootNeedsDiscriminant(a: real, b: real, c: real, t: real)
    requires a * t * t + b * t + c == 0.0
    ensures b * b - 4.0 * a * c >= 0.0
  {
    var w := 2.0 * a * t + b;
    Square(w);
    assert w * w == 4.0 * a * (a * t * t + b * t + c) + b * b - 4.0 * a * c;
  }

  /** The roots of a quadratic with a true square root of its discriminant are t1 and t2. */
  lemma QuadraticRoots(a: real, b: real, c: real, root: real, u: real)
    requires a != 0.0 && root * root == b * b - 4.0 * a * c
    requires a * u * u + b * u + c == 0.0
    ensures u == (-b - root) / (2.0 * a) || u == (-b + root) / (2.0 * a)
  {
    var t1 := (-b - root) / (2.0 * a);
    var t2 := (-b + root) / (2.0 * a);
    Factor(a, b, c, root, u);
    assert a * ((u - t1) * (u - t2)) == 0.0;
    assert (u - t1) * (u - t2) == 0.0;
  }

  /** A root of a quadratic is t1 or t2, given a true square root of its (then non-negative) discriminant. */
  lemma RootIsT1OrT2(a: real, b: real, c: real, root: real, u: real)
    requires a != 0.0 && a * u * u + b * u + c == 0.0
    requires b * b - 4.0 * a * c >= 0.0 ==> root * root == b * b - 4.0 * a * c
    ensures b * b - 4.0 * a * c >= 0.0
    ensures u == (-b - root) / (2.0 * a) || u == (-b + root) / (2.0 * a)
  {
    RootNeedsDiscriminant(a, b, c, u);
    QuadraticRoots(a, b, c, root, u);
  }

  /** Every parameter where the segment meets the circle is t1 or t2. */
  lemma OnlyRootsMeet(s: Segment, center: Point, radius: real, sqrt: real -> real, u: real)
    requires RootOk(s, center, radius, sqrt) && QuadA(s) != 0.0
    requires OnCircle(At(s, u), center, radius)
    ensures var d := Discriminant(s, center, radius);
            QuadA(s) > 0.0 && d >= 0.0 &&
            (u == (-QuadB(s, center) - sqrt(d)) / (2.0 * QuadA(s)) ||
             u == (-QuadB(s, center) + sqrt(d)) / (2.0 * QuadA(s)))
  {
    OnCircleIffRoot(s, center, radius, u);
    RootOfQuadratic(s, center, radius, sqrt, u);
  }

  /** A root of the segment's quadratic is t1 or t2, and the discriminant is non-negative. */
  lemma RootOfQuadratic(s: Segment, center: Point, radius: real, sqrt: real -> real, u: real)
    requires RootOk(s, center, radius, sqrt) && QuadA(s) != 0.0
    requires Quadratic(s, center, radius, u) == 0.0
    ensures var d := Discriminant(s, center, radius);
            d >= 0.0 &&
            (u == (-QuadB(s, center) - sqrt(d)) / (2.0 * QuadA(s)) ||
             u == (-QuadB(s, center) + sqrt(d)) / (2.0 * QuadA(s)))
  {
    RootIsT1OrT2(QuadA(s), QuadB(s, center), QuadC(s, center, radius), sqrt(Discriminant(s, center, radius)), u);
  }

  /** Either root of a quadratic with a true square root of its discriminant is a root. */
  lemma RootsAreRoots(a: real, b: real, c: real, root: real, t: real)
    requires a != 0.0 && root * root == b * b - 4.0 * a * c
    requires t == (-b - root) / (2.0 * a) || t == (-b + root) / (2.0 * a)
    ensures a * t * t + b * t + c == 0.0
  {
    Factor(a, b, c, root, t);
  }

  /** A chosen parameter is one of the two roots t1, t2 of a non-degenerate quadratic. */
  lemma HitParamShape(s: Segment, center: Point, radius: real, sqrt: real -> real)
    requires HitParam(s, center, radius, sqrt).Some?
    ensures var a, b, d := QuadA(s), QuadB(s, center), Discriminant(s, center, radius);
            var t := HitParam(s, center, radius, sqrt).value;
            a != 0.0 && d >= 0.0 &&
            (t == (-b - sqrt(d)) / (2.0 * a) || t == (-b + sqrt(d)) / (2.0 * a))
  {
  }

  /** The chosen parameter is a root of the quadratic. */
  lemma HitParamIsRoot(s: Segment, center: Point, radius: real, sqrt: real -> real)
    requires RootOk(s, center, radius, sqrt)
    requires HitParam(s, center, radius, sqrt).Some?
    ensures Quadratic(s, center, radius, HitParam(s, center, radius, sqrt).value) == 0.0
  {
    HitParamShape(s, center, radius, sqrt);
    RootsAreRoots(QuadA(s), QuadB(s, center), QuadC(s, center, radius),
                  sqrt(Discriminant(s, center, radius)), HitParam(s, center, radius, sqrt).value);
  }

  /** The chosen parameter is on the circle. */
  lemma HitIsOnCircle(s: Segment, center: Point, radius: real, sqrt: real -> real)
    requires RootOk(s, center, radius, sqrt)
    requires HitParam(s, center, radius, sqrt).Some?
    ensures OnCircle(At(s, HitParam(s, center, radius, sqrt).value), center, radius)
  {
    HitParamIsRoot(s, center, radius, sqrt);
    OnCircleIffRoot(s, center, radius, HitParam(s, center, radius, sqrt).value);
  }

  /**
   * With a true square root, the chosen hit is the first point of the
   * segment (smallest parameter) that lies on the circle; no hit on a
   * segment of non-zero length means the segment misses the circle. (A
   * segment of length zero never hits, even when its point is on the circle.)
   */
  lemma RayCircleFirstPoint(s: Segment, center: Point, radius: real, sqrt: real -> real)
    requires RootOk(s, center, radius, sqrt)
    ensures HitParam(s, center, radius, sqrt).Some? ==>
              var t := HitParam(s, center, radius, sqrt).value;
              OnCircle(At(s, t), center, radius) &&
              forall u :: 0.0 <= u < t ==> !OnCircle(At(s, u), center, radius)
    ensures HitParam(s, center, radius, sqrt).None? && DistSq(s.a, s.b) != 0.0 ==>
              forall u :: 0.0 <= u <= 1.0 ==> !OnCircle(At(s, u), center, radius)
  {
    var hit := HitParam(s, center, radius, sqrt);
    if hit.Some? {
      HitIsOnCircle(s, center, radius, sqrt);
    }
    if QuadA(s) == 0.0 {
      return;
    }
    forall u | 0.0 <= u <= 1.0 && OnCircle(At(s, u), center, radius)
      ensures hit.Some? && hit.value <= u
    {
      FirstRootBelowOthers(s, center, radius, sqrt, u);
    }
  }

  lemma FirstRootBelowOthers(s: Segment, center: Point, radius: real, sqrt: real -> real, u: real)
    requires RootOk(s, center, radius, sqrt) && QuadA(s) != 0.0
    requires 0.0 <= u <= 1.0 && OnCircle(At(s, u), center, radius)
    ensures HitParam(s, center, radius, sqrt).Some? && HitParam(s, center, radius, sqrt).value <= u
  {
    OnlyRootsMeet(s, center, radius, sqrt, u);
    var a, b := QuadA(s), QuadB(s, center);
    var root := sqrt(Discriminant(s, center, radius));
    RootsOrdered(a, b, root);
    HitParamOfRoots(s, center, radius, sqrt);
  }

  lemma RootsOrdered(a: real, b: real, root: real)
    requires a > 0.0 && root >= 0.0
    ensures (-b - root) / (2.0 * a) <= (-b + root) / (2.0 * a)
  {
    var t1 := (-b - root) / (2.0 * a);
    var t2 := (-b + root) / (2.0 * a);
    assert t1 * (2.0 * a) == -b - root;
    assert t2 * (2.0 * a) == -b + root;
    assert (t2 - t1) * (2.0 * a) >= 0.0;
  }

  lemma HitParamOfRoots(s: Segment, center: Point, radius: real, sqrt: real -> real)
    requires Discriminant(s, center, radius) >= 0.0 && QuadA(s) != 0.0
    ensures var d := Discriminant(s, center, radius);
            HitParam(s, center, radius, sqrt) ==
            PreferFirst((-QuadB(s, center) - sqrt(d)) / (2.0 * QuadA(s)),
                        (-QuadB(s, center) + sqrt(d)) / (2.0 * QuadA(s)))
  {
  }
}
