/** The motion timing estimator: how long a relative move is told to take,
    how far an absolute move travels in the plane, and how long an HTTP
    caller is kept waiting for a move to finish. Arithmetic is exact; NaN is
    None; Math.sqrt is the parameter `sqrt`. */
module Estimator {
  import opened Js

  /** What the model needs of Math.sqrt: the non-negative root of a
      non-negative argument. */
  ghost predicate IsSqrt(sqrt: real -> real)
  {
    forall r: real :: 0.0 <= r ==> 0.0 <= sqrt(r) && sqrt(r) * sqrt(r) == r
  }

  // ---------------------------------------------------------------------------
  // calculateDuration

  function Abs(x: real): real { if x < 0.0 then -x else x }

  /** The duration of a relative move by z at the configured relative move
      speed: a downward move (z < 0) takes two time units per unit of
      distance, an upward one only one. */
  function RelativeDuration(z: real, speed: real): (d: real)
    requires speed > 0.0
    ensures d >= 0.0
    ensures z >= 0.0 ==> d * speed == z
    ensures z < 0.0 ==> d * speed == 2.0 * -z
  {
    if z < 0.0 then 2.0 * Abs(z) / speed else z / speed
  }

  /** calculateDuration(msg): NaN when msg.z is missing or not a number. */
  function Duration(msg: Fields, speed: real): (d: Option<real>)
    requires speed > 0.0
    ensures d.Some? <==> ToNumber(Lookup(msg, "z")).Some?
    ensures ToNumber(Lookup(msg, "z")).Some? ==>
              d == Some(RelativeDuration(ToNumber(Lookup(msg, "z")).value, speed))
  {
    match ToNumber(Lookup(msg, "z"))
    case None => None
    case Some(z) => Some(RelativeDuration(z, speed))
  }

  /** A downward move takes exactly twice as long as the upward move of the
      same length. */
  lemma DownwardTakesTwice(d: real, speed: real)
    requires speed > 0.0 && d >= 0.0
    ensures RelativeDuration(-d, speed) == 2.0 * RelativeDuration(d, speed)
  {
  }

  // ---------------------------------------------------------------------------
  // calculateDistance

  datatype Point = Point(x: real, y: real)

  /** The point the arm passes through when a move crosses its centerline. */
  const Waypoint := Point(0.0, -162.94)

  /** Euclidean distance in the (x, y) plane, squares written out for Math.pow(_, 2). */
  function Dist(sqrt: real -> real, a: Point, b: Point): real
  {
    Norm(sqrt, b.x - a.x, b.y - a.y)
  }

  /** The length of the vector (dx, dy). */
  function Norm(sqrt: real -> real, dx: real, dy: real): real
  {
    sqrt(dx * dx + dy * dy)
  }

  /** The point given by two coordinates, when both are numbers. */
  function PointOf(x: Option<real>, y: Option<real>): Option<Point>
  {
    if x.Some? && y.Some? then Some(Point(x.value, y.value)) else None
  }

  /** `(cx < 0 && tx < 0) || (cx > 0 && tx > 0)`; any comparison with NaN is false. */
  predicate SameSide(cx: Option<real>, tx: Option<real>)
  {
    cx.Some? && tx.Some? && ((cx.value < 0.0 && tx.value < 0.0) || (cx.value > 0.0 && tx.value > 0.0))
  }

  /** Which branch calculateDistance takes. */
  datatype Route = Direct | ViaWaypoint | TargetZ

  /** The branch for a target `msg` and a readable cached status `cur`. */
  function RouteOf(msg: Fields, cur: Json): Route
  {
    var cx := Read(Some(cur), "x");
    if cx.Value? && (StrictEqualsNumber(cx.value, 0.0)
                     || SameSide(ToNumber(cx.value), ToNumber(Lookup(msg, "x"))))
    then Direct
    else if "x" in msg && "y" in msg then ViaWaypoint
    else TargetZ
  }

  /** calculateDistance(msg), reading the current position from the cached
      status `state`. It throws when the cache is undefined or null; it is NaN
      when a coordinate it needs is not a number. */
  function Distance(sqrt: real -> real, msg: Fields, state: Option<Json>): (r: Eval<Option<real>>)
    ensures r.TypeError? <==> IsNullish(state)
  {
    if IsNullish(state) then TypeError
    else
      var cur := PointOf(ToNumber(Read(state, "x").value), ToNumber(Read(state, "y").value));
      var target := PointOf(ToNumber(Lookup(msg, "x")), ToNumber(Lookup(msg, "y")));
      match RouteOf(msg, state.value)
      case Direct =>
        Value(if cur.Some? && target.Some? then Some(Dist(sqrt, cur.value, target.value)) else None)
      case ViaWaypoint =>
        Value(if cur.Some? && target.Some?
              then Some(Dist(sqrt, cur.value, Waypoint) + Dist(sqrt, Waypoint, target.value))
              else None)
      case TargetZ =>
        Value(ToNumber(Lookup(msg, "z")))
  }

  // ---------------------------------------------------------------------------
  // calculateTimeoutTime

  /** The move is relative when msg.x and msg.y are each 0 or undefined. */
  predicate IsRelative(msg: Fields)
  {
    (StrictEqualsNumber(Lookup(msg, "x"), 0.0) || Lookup(msg, "x").None?)
    && (StrictEqualsNumber(Lookup(msg, "y"), 0.0) || Lookup(msg, "y").None?)
  }

  /** The reply delay in milliseconds for a move of the given distance:
      (distance * 0.003 + 0.85) seconds, that is 850 ms of settling time plus
      3 ms per unit of distance. */
  function TimeoutFor(distance: real): (ms: real)
    ensures ms == 850.0 + 3.0 * distance
  {
    (distance * 0.003 + 0.85) * 1000.0
  }

  /** A longer move always waits strictly longer. */
  lemma TimeoutIncreasing(d1: real, d2: real)
    requires d1 < d2
    ensures TimeoutFor(d1) < TimeoutFor(d2)
  {
  }

  /** calculateTimeoutTime(msg): a relative move waits for its z distance and
      never reads the cache; an absolute move waits for calculateDistance. */
  function TimeoutMillis(sqrt: real -> real, msg: Fields, state: Option<Json>): (r: Eval<Option<real>>)
    ensures r.TypeError? <==> !IsRelative(msg) && IsNullish(state)
    ensures IsRelative(msg) ==>
      r == Value(match ToNumber(Lookup(msg, "z"))
                 case Some(z) => Some(TimeoutFor(z))
                 case None => None)
    ensures !IsRelative(msg) && Distance(sqrt, msg, state) == Value(None) ==> r == Value(None)
    ensures forall d :: !IsRelative(msg) && Distance(sqrt, msg, state) == Value(Some(d)) ==>
              r == Value(Some(TimeoutFor(d)))
  {
    var distance: Eval<Option<real>> := if IsRelative(msg) then Value(ToNumber(Lookup(msg, "z")))
                    else Distance(sqrt, msg, state);
    match distance
    case TypeError => TypeError
    case Value(None) => Value(None)
    case Value(Some(d)) => Value(Some(TimeoutFor(d)))
  }

  // ---------------------------------------------------------------------------
  // Geometry of the two routes

  /** Of two non-negative numbers, the one with the smaller square is smaller. */
  lemma SquareMonotone(a: real, b: real)
    requires 0.0 <= a && 0.0 <= b && a * a <= b * b
    ensures a <= b
  {
    if a > b {
      assert a * a - b * b == (a - b) * (a + b);
      ProductPositive(a - b, a + b);
    }
  }

  lemma ProductPositive(x: real, y: real)
    requires x > 0.0 && y > 0.0
    ensures x * y > 0.0
  {
  }

  /** sqrt undoes squaring a non-negative number. */
  lemma SqrtOfSquare(sqrt: real -> real, x: real)
    requires IsSqrt(sqrt) && x >= 0.0
    ensures sqrt(x * x) == x
  {
    var s := sqrt(x * x);
    assert 0.0 <= s && s * s == x * x;
    SquareMonotone(s, x);
    SquareMonotone(x, s);
  }

  /** Distances are never negative. */
  lemma DistNonNegative(sqrt: real -> real, a: Point, b: Point)
    requires IsSqrt(sqrt)
    ensures Dist(sqrt, a, b) >= 0.0
  {
    SumOfSquares(b.x - a.x, b.y - a.y);
  }

  /** Lagrange's identity in the plane: |u|^2 |v|^2 = (u.v)^2 + (u x v)^2. */
  lemma Lagrange(u1: real, u2: real, v1: real, v2: real)
    ensures (u1 * u1 + u2 * u2) * (v1 * v1 + v2 * v2)
            == (u1 * v1 + u2 * v2) * (u1 * v1 + u2 * v2) + (u1 * v2 - u2 * v1) * (u1 * v2 - u2 * v1)
  {
  }

  /** Cauchy-Schwarz in the plane: the dot product of u and v is at most
      the product of their lengths. */
  lemma CauchySchwarz(sqrt: real -> real, u1: real, u2: real, v1: real, v2: real)
    requires IsSqrt(sqrt)
    ensures u1 * v1 + u2 * v2 <= sqrt(u1 * u1 + u2 * u2) * sqrt(v1 * v1 + v2 * v2)
  {
    var uu, vv := u1 * u1 + u2 * u2, v1 * v1 + v2 * v2;
    var dot, cross := u1 * v1 + u2 * v2, u1 * v2 - u2 * v1;
    SumOfSquares(u1, u2);
    SumOfSquares(v1, v2);
    var p, q := sqrt(uu), sqrt(vv);
    assert 0.0 <= p && p * p == uu;
    assert 0.0 <= q && q * q == vv;
    Lagrange(u1, u2, v1, v2);
    assert (p * q) * (p * q) == uu * vv by {
      assert (p * q) * (p * q) == (p * p) * (q * q);
    }
    assert cross * cross >= 0.0;
    assert 0.0 <= p * q;
    if dot > 0.0 {
      SquareMonotone(dot, p * q);
    }
  }

  lemma SumOfSquares(x: real, y: real)
    ensures x * x + y * y >= 0.0
  {
  }

  /** The length of a sum of two vectors is at most the sum of their lengths. */
  lemma NormTriangle(sqrt: real -> real, u1: real, u2: real, v1: real, v2: real)
    requires IsSqrt(sqrt)
    ensures Norm(sqrt, u1 + v1, u2 + v2) <= Norm(sqrt, u1, u2) + Norm(sqrt, v1, v2)
  {
    var uu, vv := u1 * u1 + u2 * u2, v1 * v1 + v2 * v2;
    var ss := (u1 + v1) * (u1 + v1) + (u2 + v2) * (u2 + v2);
    SumOfSquares(u1, u2);
    SumOfSquares(v1, v2);
    SumOfSquares(u1 + v1, u2 + v2);
    var p, q, s := sqrt(uu), sqrt(vv), sqrt(ss);
    assert 0.0 <= p && p * p == uu;
    assert 0.0 <= q && q * q == vv;
    assert 0.0 <= s && s * s == ss;
    CauchySchwarz(sqrt, u1, u2, v1, v2);
    assert ss == uu + vv + 2.0 * (u1 * v1 + u2 * v2);
    assert (p + q) * (p + q) == p * p + q * q + 2.0 * (p * q);
    SquareMonotone(s, p + q);
  }

  /** The triangle inequality: going through w is never shorter than going
      straight from a to b. */
  lemma Triangle(sqrt: real -> real, a: Point, w: Point, b: Point)
    requires IsSqrt(sqrt)
    ensures Dist(sqrt, a, w) + Dist(sqrt, w, b) >= Dist(sqrt, a, b)
  {
    var u1, u2 := w.x - a.x, w.y - a.y;
    var v1, v2 := b.x - w.x, b.y - w.y;
    NormTriangle(sqrt, u1, u2, v1, v2);
    assert b.x - a.x == u1 + v1 && b.y - a.y == u2 + v2;
  }

  // ---------------------------------------------------------------------------
  // Properties of calculateDistance

  /** From the reset position (current x exactly 0) the distance is the
      straight line, whatever side the target is on. */
  lemma FromResetIsDirect(sqrt: real -> real, msg: Fields, cur: Json, c: Point, t: Point)
    requires cur.JObj? && Lookup(cur.fields, "x") == Some(JNum(0.0))
    requires ToNumber(Lookup(cur.fields, "y")) == Some(c.y) && c.x == 0.0
    requires ToNumber(Lookup(msg, "x")) == Some(t.x) && ToNumber(Lookup(msg, "y")) == Some(t.y)
    ensures Distance(sqrt, msg, Some(cur)) == Value(Some(Dist(sqrt, c, t)))
  {
  }

  /** A move that stays strictly on one side of the centerline is measured
      along the straight line. */
  lemma SameSideIsDirect(sqrt: real -> real, msg: Fields, cur: Json, c: Point, t: Point)
    requires cur.JObj?
    requires ToNumber(Lookup(cur.fields, "x")) == Some(c.x) && ToNumber(Lookup(cur.fields, "y")) == Some(c.y)
    requires ToNumber(Lookup(msg, "x")) == Some(t.x) && ToNumber(Lookup(msg, "y")) == Some(t.y)
    requires (c.x < 0.0 && t.x < 0.0) || (c.x > 0.0 && t.x > 0.0)
    ensures Distance(sqrt, msg, Some(cur)) == Value(Some(Dist(sqrt, c, t)))
  {
  }

  /** A move from a non-zero x that does not stay on its side (including a
      target exactly on the centerline) goes through the waypoint
      (0, -162.94), and that route is never shorter than the straight line. */
  lemma CrossingGoesViaWaypoint(sqrt: real -> real, msg: Fields, cur: Json, c: Point, t: Point)
    requires IsSqrt(sqrt)
    requires cur.JObj? && Lookup(cur.fields, "x") == Some(JNum(c.x)) && c.x != 0.0
    requires ToNumber(Lookup(cur.fields, "y")) == Some(c.y)
    requires Lookup(msg, "x") == Some(JNum(t.x)) && ToNumber(Lookup(msg, "y")) == Some(t.y)
    requires (c.x < 0.0 && t.x >= 0.0) || (c.x > 0.0 && t.x <= 0.0)
    ensures Distance(sqrt, msg, Some(cur)) == Value(Some(Dist(sqrt, c, Waypoint) + Dist(sqrt, Waypoint, t)))
    ensures Dist(sqrt, c, Waypoint) + Dist(sqrt, Waypoint, t) >= Dist(sqrt, c, t)
  {
    assert RouteOf(msg, cur) == ViaWaypoint;
    Triangle(sqrt, c, Waypoint, t);
  }

  /** When the target gives no usable x or y for a move that is neither from
      the reset position nor on one side, the distance is the target's z. */
  lemma MissingPlanarTargetUsesZ(sqrt: real -> real, msg: Fields, cur: Json)
    requires cur.JObj? && !StrictEqualsNumber(Lookup(cur.fields, "x"), 0.0)
    requires !SameSide(ToNumber(Lookup(cur.fields, "x")), ToNumber(Lookup(msg, "x")))
    requires "x" !in msg || "y" !in msg
    ensures Distance(sqrt, msg, Some(cur)) == Value(ToNumber(Lookup(msg, "z")))
  {
  }

  /** On both planar routes the distance, when it is a number, is
      non-negative; only the fallback to z can be negative. */
  lemma {:induction false} DistanceNonNegative(sqrt: real -> real, msg: Fields, state: Option<Json>)
    requires IsSqrt(sqrt) && !IsNullish(state)
    requires RouteOf(msg, state.value) != TargetZ
    ensures Distance(sqrt, msg, state).Value?
    ensures Distance(sqrt, msg, state).value.Some? ==> Distance(sqrt, msg, state).value.value >= 0.0
  {
    var cur := PointOf(ToNumber(Read(state, "x").value), ToNumber(Read(state, "y").value));
    var target := PointOf(ToNumber(Lookup(msg, "x")), ToNumber(Lookup(msg, "y")));
    if cur.Some? && target.Some? {
      DistNonNegative(sqrt, cur.value, target.value);
      DistNonNegative(sqrt, cur.value, Waypoint);
      DistNonNegative(sqrt, Waypoint, target.value);
    }
  }

  /** The detour is not always strictly longer: when the waypoint lies on the
      straight segment, here from (-50, -162.94) to (50, -162.94), both routes
      measure 100. */
  lemma DetourCanEqualDirect(sqrt: real -> real)
    requires IsSqrt(sqrt)
    ensures var cur := JObj(map["x" := JNum(-50.0), "y" := JNum(-162.94)]);
            var msg := map["x" := JNum(50.0), "y" := JNum(-162.94)];
            Distance(sqrt, msg, Some(cur)) == Value(Some(100.0))
            && Dist(sqrt, Point(-50.0, -162.94), Point(50.0, -162.94)) == 100.0
  {
    var c, t := Point(-50.0, -162.94), Point(50.0, -162.94);
    SqrtOfSquare(sqrt, 50.0);
    SqrtOfSquare(sqrt, 100.0);
    assert Dist(sqrt, c, Waypoint) == 50.0 by {
      assert (Waypoint.x - c.x) * (Waypoint.x - c.x) + (Waypoint.y - c.y) * (Waypoint.y - c.y) == 50.0 * 50.0;
    }
    assert Dist(sqrt, Waypoint, t) == 50.0 by {
      assert (t.x - Waypoint.x) * (t.x - Waypoint.x) + (t.y - Waypoint.y) * (t.y - Waypoint.y) == 50.0 * 50.0;
    }
    assert Dist(sqrt, c, t) == 100.0 by {
      assert (t.x - c.x) * (t.x - c.x) + (t.y - c.y) * (t.y - c.y) == 100.0 * 100.0;
    }
    var cur := JObj(map["x" := JNum(-50.0), "y" := JNum(-162.94)]);
    var msg := map["x" := JNum(50.0), "y" := JNum(-162.94)];
    assert RouteOf(msg, cur) == ViaWaypoint;
  }
}
