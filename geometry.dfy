/** Geometric rules of the obstacle editor: a square field of side GRID_SIZE,
    circular obstacles, and the three predicates placement and resize are
    built on (overlap, nearness to the start/end anchors, out of bounds).

    The hook's `isOverlapping` and `isNearStartOrEnd` compare Euclidean
    distances obtained with a square root.  Here every comparison `dist < t`
    is stated on squares, as `t > 0 && dist² < t²`, which is exactly
    equivalent for a non-negative `dist` (see
    `CloseMatchesDistance` and `NearMatchesDistance`). */
module Geometry {

  import opened Options

  const GRID_SIZE: real := 600.0
  const MIN_RADIUS: real := 20.0
  const MAX_RADIUS: real := 100.0
  const SAFE_DISTANCE: real := 30.0
  /** Extra clearance between two obstacles, on top of their radii. */
  const MARGIN: real := 10.0

  type Id = string

  datatype Point = Point(x: real, y: real)

  datatype Obstacle = Obstacle(id: Id, x: real, y: real, radius: real)

  const DEFAULT_START: Point := Point(50.0, GRID_SIZE / 2.0)
  const DEFAULT_END: Point := Point(GRID_SIZE - 50.0, GRID_SIZE / 2.0)

  function Sq(a: real): real { a * a }

  /** Squared Euclidean distance between (x1, y1) and (x2, y2). */
  function Dist2(x1: real, y1: real, x2: real, y2: real): real
  {
    Sq(x1 - x2) + Sq(y1 - y2)
  }

  /** A circle of radius `r` at (x, y) comes closer than the margin to `o`:
      their centre distance is below `r + o.radius + MARGIN`. */
  predicate Close(x: real, y: real, r: real, o: Obstacle)
  {
    var t := r + o.radius + MARGIN;
    t > 0.0 && Dist2(x, y, o.x, o.y) < Sq(t)
  }

  /** Two obstacles that keep the margin between them. */
  predicate Apart(a: Obstacle, b: Obstacle)
  {
    !Close(a.x, a.y, a.radius, b)
  }

  /** `isOverlapping`: some existing obstacle is too close to the circle. */
  predicate Overlapping(x: real, y: real, r: real, obs: seq<Obstacle>)
  {
    exists i :: 0 <= i < |obs| && Close(x, y, r, obs[i])
  }

  /** The circle's centre is closer than `SAFE_DISTANCE + r` to `p`. */
  predicate NearPoint(x: real, y: real, r: real, p: Point)
  {
    var t := SAFE_DISTANCE + r;
    t > 0.0 && Dist2(x, y, p.x, p.y) < Sq(t)
  }

  /** `isNearStartOrEnd`. */
  predicate NearStartOrEnd(x: real, y: real, r: real, start: Point, end: Point)
  {
    NearPoint(x, y, r, start) || NearPoint(x, y, r, end)
  }

  /** `isOutOfBounds`: the circle leaves [0, GRID_SIZE] on some axis. */
  predicate OutOfBounds(x: real, y: real, r: real)
  {
    x - r < 0.0 || x + r > GRID_SIZE || y - r < 0.0 || y + r > GRID_SIZE
  }

  /** For a non-negative distance `d`, `d < t` holds exactly when `t` is
      positive and `d² < t²`. */
  lemma SquareCompare(d: real, t: real)
    requires d >= 0.0
    ensures (t > 0.0 && Sq(d) < Sq(t)) <==> d < t
  {
    if d < t {
      SquareLess(d, t);
    } else if t > 0.0 {
      SquareLess(t, d);
    }
  }

  /** Squaring is monotone on the non-negative reals. */
  lemma SquareLess(a: real, b: real)
    requires 0.0 <= a <= b
    ensures Sq(a) <= Sq(b)
    ensures a < b ==> Sq(a) < Sq(b)
  {
    var u, v := b - a, b + a;
    assert Sq(b) - Sq(a) == u * v;
    if a < b {
      assert v >= u > 0.0;
      assert u * v >= u * u;
    }
  }

  /** The squared form of `Close` agrees with `isOverlapping`'s comparison of
      the square-rooted distance: for `d` the centre distance, `Close` holds
      exactly when `d < r + o.radius + MARGIN`. */
  lemma CloseMatchesDistance(x: real, y: real, r: real, o: Obstacle, d: real)
    requires d >= 0.0 && Sq(d) == Dist2(x, y, o.x, o.y)
    ensures Close(x, y, r, o) <==> d < r + o.radius + MARGIN
  {
    SquareCompare(d, r + o.radius + MARGIN);
  }

  /** Likewise for the anchor test: `NearPoint` holds exactly when the centre
      distance `d` to the anchor is below `SAFE_DISTANCE + r`. */
  lemma NearMatchesDistance(x: real, y: real, r: real, p: Point, d: real)
    requires d >= 0.0 && Sq(d) == Dist2(x, y, p.x, p.y)
    ensures NearPoint(x, y, r, p) <==> d < SAFE_DISTANCE + r
  {
    SquareCompare(d, SAFE_DISTANCE + r);
  }

  /** Closeness does not depend on which of the two circles is asked about. */
  lemma CloseSymmetric(a: Obstacle, b: Obstacle)
    ensures Close(a.x, a.y, a.radius, b) <==> Close(b.x, b.y, b.radius, a)
  {
    assert Sq(a.x - b.x) == Sq(b.x - a.x);
    assert Sq(a.y - b.y) == Sq(b.y - a.y);
  }

  /** Closeness is monotone in the radius: a circle that comes too close at
      radius `r` also comes too close at every larger radius. */
  lemma CloseMonotone(x: real, y: real, r: real, r': real, o: Obstacle)
    requires r <= r'
    ensures Close(x, y, r, o) ==> Close(x, y, r', o)
  {
    var t, t' := r + o.radius + MARGIN, r' + o.radius + MARGIN;
    if t > 0.0 {
      SquareLess(t, t');
    }
  }

  /** Overlap is monotone in the radius. */
  lemma OverlappingMonotone(x: real, y: real, r: real, r': real, obs: seq<Obstacle>)
    requires r <= r'
    ensures Overlapping(x, y, r, obs) ==> Overlapping(x, y, r', obs)
  {
    if Overlapping(x, y, r, obs) {
      var i :| 0 <= i < |obs| && Close(x, y, r, obs[i]);
      CloseMonotone(x, y, r, r', obs[i]);
    }
  }

  /** Two obstacles that are `Apart` keep a centre distance of at least the sum
      of their radii plus the margin. */
  lemma ApartDistance(a: Obstacle, b: Obstacle, d: real)
    requires Apart(a, b)
    requires d >= 0.0 && Sq(d) == Dist2(a.x, a.y, b.x, b.y)
    ensures d >= a.radius + b.radius + MARGIN
  {
    CloseMatchesDistance(a.x, a.y, a.radius, b, d);
  }

  /** A circle of non-negative radius that is not out of bounds lies, centre
      and rim, inside the field. */
  lemma InBoundsInsideField(x: real, y: real, r: real)
    requires r >= 0.0 && !OutOfBounds(x, y, r)
    ensures 0.0 <= x - r && x + r <= GRID_SIZE && 0.0 <= y - r && y + r <= GRID_SIZE
    ensures 0.0 <= x <= GRID_SIZE && 0.0 <= y <= GRID_SIZE
  {
  }

  /** The retry loop of a placement click: start at MIN_RADIUS and, for at
      most five attempts, accept the first radius that overlaps nothing,
      otherwise grow it by 10 (capped at MAX_RADIUS).  Because overlap is
      monotone in the radius, the search yields MIN_RADIUS or nothing. */
  method SearchRadius(x: real, y: real, obs: seq<Obstacle>) returns (found: Option<real>)
    ensures found.Some? <==> !Overlapping(x, y, MIN_RADIUS, obs)
    ensures found.Some? ==> found.value == MIN_RADIUS
  {
    var radius := MIN_RADIUS;
    var attempts := 0;
    var maxAttempts := 5;
    while attempts < maxAttempts
      invariant 0 <= attempts <= maxAttempts
      invariant radius == MIN_RADIUS + 10.0 * attempts as real
      invariant attempts > 0 ==> Overlapping(x, y, MIN_RADIUS, obs)
    {
      OverlappingMonotone(x, y, MIN_RADIUS, radius, obs);
      if !Overlapping(x, y, radius, obs) {
        return Some(radius);
      }
      radius := if radius + 10.0 < MAX_RADIUS then radius + 10.0 else MAX_RADIUS;
      attempts := attempts + 1;
    }
    return None;
  }
}
