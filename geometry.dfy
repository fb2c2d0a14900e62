/** The numeric kernel of the renderer: the angle-containment test shared by
    ring and fan sectors, bounding boxes of candidate points, the pivot
    offsets of partial ring sectors and fan sectors, and the text-width
    estimate used to centre text.

    Angles are whole degrees. The sector start is -90 degrees (the top of
    the board, since the raster's y axis points down) and the sector ends
    `arcAngle` degrees further clockwise. `cos` and `sin` are not computed:
    they are a parameter `Trig`, of which the lemmas assume only the range
    [-1, 1] and the exact values at the cardinal directions. */
module Geometry {

  /** Cosine and sine of an angle in degrees. */
  datatype Trig = Trig(cos: int -> real, sin: int -> real)

  /** What the lemmas may assume of `Trig`. */
  ghost predicate ValidTrig(t: Trig) {
    (forall a: int :: -1.0 <= t.cos(a) <= 1.0) &&
    (forall a: int :: -1.0 <= t.sin(a) <= 1.0) &&
    t.cos(-90) == 0.0 && t.sin(-90) == -1.0 &&
    t.cos(0) == 1.0 && t.sin(0) == 0.0 &&
    t.cos(90) == 0.0 && t.sin(90) == 1.0 &&
    t.cos(180) == -1.0 && t.sin(180) == 0.0 &&
    t.cos(270) == 0.0 && t.sin(270) == -1.0
  }

  const FullTurn: int := 360
  const StartAngle: int := -90

  /** The angle at which a sector of `arcAngle` degrees ends. */
  function EndAngle(arcAngle: int): int {
    StartAngle + arcAngle
  }

  /** `((a % 2pi) + 2pi) % 2pi` in degrees: JavaScript's `%` truncates, and
      the added turn makes the result the non-negative remainder, which is
      Dafny's `%`. */
  function Normalize(angle: int): (n: int)
    ensures 0 <= n < FullTurn
    ensures (angle - n) % FullTurn == 0
  {
    angle % FullTurn
  }

  /** `checkAngle`: whether the sector swept clockwise from `StartAngle` by
      `arcAngle` degrees contains the direction `angle`. The end is moved a
      turn past the start when the sector wraps through 0 degrees, and so is
      an angle below the start. In other words, the clockwise distance from
      the start to the direction is at most the span, both taken modulo a
      full turn. */
  function CheckAngle(angle: int, arcAngle: int): (contained: bool)
    ensures contained <==> (angle - StartAngle) % FullTurn <= arcAngle % FullTurn
  {
    // Both the shifted direction and the shifted end sit a constant 270
    // degrees below the values compared here.
    QuarterTurnBack(angle);
    QuarterTurnBack(arcAngle - 90);
    assert arcAngle - 90 + 90 == arcAngle;
    var normalized := Normalize(angle);
    var start := Normalize(StartAngle);
    var end0 := Normalize(EndAngle(arcAngle));
    var end := if end0 < start then end0 + FullTurn else end0;
    var check := if normalized < start then normalized + FullTurn else normalized;
    check >= start && check <= end
  }

  /** Adding a quarter turn to an angle, modulo a full turn. */
  lemma QuarterTurnBack(a: int)
    ensures (a + 90) % FullTurn == if a % FullTurn < 270 then a % FullTurn + 90 else a % FullTurn - 270
  {
    var q := a / FullTurn;
    assert a == FullTurn * q + a % FullTurn;
    if a % FullTurn < 270 {
      assert a + 90 == FullTurn * q + (a % FullTurn + 90);
    } else {
      assert a + 90 == FullTurn * (q + 1) + (a % FullTurn - 270);
    }
  }

  /** The start direction is always inside the sector. */
  lemma StartIsContained(arcAngle: int)
    ensures CheckAngle(StartAngle, arcAngle)
    ensures CheckAngle(270, arcAngle)
  {
  }

  /** A quarter sector from the top reaches the right-hand direction and
      neither the bottom nor the left. */
  lemma QuarterSectorCardinals()
    ensures CheckAngle(0, 90)
    ensures !CheckAngle(90, 90)
    ensures !CheckAngle(180, 90)
    ensures CheckAngle(270, 90)
  {
  }

  // ---------------------------------------------------------------------
  // Bounding boxes

  datatype Point = Point(x: real, y: real)
  datatype Axis = X | Y

  function At(p: Point, axis: Axis): real {
    match axis
    case X => p.x
    case Y => p.y
  }

  function Min(a: real, b: real): real {
    if a <= b then a else b
  }

  function Max(a: real, b: real): real {
    if a >= b then a else b
  }

  /** The least coordinate along `axis`, folded from the first point on. */
  function Lo(ps: seq<Point>, axis: Axis): real
    requires |ps| > 0
  {
    if |ps| == 1 then At(ps[0], axis) else Min(Lo(ps[..|ps| - 1], axis), At(ps[|ps| - 1], axis))
  }

  /** The greatest coordinate along `axis`, folded from the first point on. */
  function Hi(ps: seq<Point>, axis: Axis): real
    requires |ps| > 0
  {
    if |ps| == 1 then At(ps[0], axis) else Max(Hi(ps[..|ps| - 1], axis), At(ps[|ps| - 1], axis))
  }

  datatype Box = Box(minX: real, maxX: real, minY: real, maxY: real)

  function BoundingBox(ps: seq<Point>): Box
    requires |ps| > 0
  {
    Box(Lo(ps, X), Hi(ps, X), Lo(ps, Y), Hi(ps, Y))
  }

  function Center(b: Box): Point {
    Point((b.minX + b.maxX) / 2.0, (b.minY + b.maxY) / 2.0)
  }

  predicate Inside(p: Point, b: Box) {
    b.minX <= p.x <= b.maxX && b.minY <= p.y <= b.maxY
  }

  /** `Lo` and `Hi` bound every point and are attained by some point. */
  lemma {:induction false} LoHiTight(ps: seq<Point>, axis: Axis)
    requires |ps| > 0
    ensures forall i :: 0 <= i < |ps| ==> Lo(ps, axis) <= At(ps[i], axis) <= Hi(ps, axis)
    ensures exists i :: 0 <= i < |ps| && At(ps[i], axis) == Lo(ps, axis)
    ensures exists j :: 0 <= j < |ps| && At(ps[j], axis) == Hi(ps, axis)
  {
    var last := |ps| - 1;
    if last == 0 {
      assert At(ps[0], axis) == Lo(ps, axis) == Hi(ps, axis);
    } else {
      var front := ps[..last];
      LoHiTight(front, axis);
      assert forall i :: 0 <= i < |front| ==> front[i] == ps[i];
      var i :| 0 <= i < |front| && At(front[i], axis) == Lo(front, axis);
      var j :| 0 <= j < |front| && At(front[j], axis) == Hi(front, axis);
      var lo := if Lo(ps, axis) == At(ps[last], axis) then last else i;
      var hi := if Hi(ps, axis) == At(ps[last], axis) then last else j;
      assert 0 <= lo < |ps| && At(ps[lo], axis) == Lo(ps, axis);
      assert 0 <= hi < |ps| && At(ps[hi], axis) == Hi(ps, axis);
    }
  }

  /** The bounding box is the least axis-aligned box holding every point:
      it holds them all, and each of its four sides touches one of them. */
  lemma BoundingBoxIsTight(ps: seq<Point>)
    requires |ps| > 0
    ensures forall i :: 0 <= i < |ps| ==> Inside(ps[i], BoundingBox(ps))
    ensures exists i :: 0 <= i < |ps| && ps[i].x == BoundingBox(ps).minX
    ensures exists i :: 0 <= i < |ps| && ps[i].x == BoundingBox(ps).maxX
    ensures exists i :: 0 <= i < |ps| && ps[i].y == BoundingBox(ps).minY
    ensures exists i :: 0 <= i < |ps| && ps[i].y == BoundingBox(ps).maxY
  {
    LoHiTight(ps, X);
    LoHiTight(ps, Y);
  }

  /** Points whose coordinates lie in [lo, hi] have a bounding box within
      [lo, hi] too, and so does its centre. */
  lemma BoundingBoxWithin(ps: seq<Point>, lo: real, hi: real)
    requires |ps| > 0
    requires forall i :: 0 <= i < |ps| ==> lo <= ps[i].x <= hi && lo <= ps[i].y <= hi
    ensures var b := BoundingBox(ps);
      lo <= b.minX <= b.maxX <= hi && lo <= b.minY <= b.maxY <= hi
    ensures lo <= Center(BoundingBox(ps)).x <= hi && lo <= Center(BoundingBox(ps)).y <= hi
  {
    BoundingBoxIsTight(ps);
  }

  /** Growing the bounding box by one point. */
  lemma AddPoint(ps: seq<Point>, p: Point)
    requires |ps| > 0
    ensures BoundingBox(ps + [p]) == Box(Min(Lo(ps, X), p.x), Max(Hi(ps, X), p.x),
                                          Min(Lo(ps, Y), p.y), Max(Hi(ps, Y), p.y))
  {
  }

  /** Growing the bounding box of a prefix by the next point. */
  lemma AddNextPoint(ps: seq<Point>, i: int)
    requires 0 < i < |ps|
    ensures BoundingBox(ps[..i + 1]) == Box(Min(Lo(ps[..i], X), ps[i].x), Max(Hi(ps[..i], X), ps[i].x),
                                            Min(Lo(ps[..i], Y), ps[i].y), Max(Hi(ps[..i], Y), ps[i].y))
  {
    assert ps[..i + 1] == ps[..i] + [ps[i]];
    AddPoint(ps[..i], ps[i]);
  }

  // ---------------------------------------------------------------------
  // Ring sectors (`calculateDonutOffset`)

  /** The point at distance `r` from the origin in direction `angle`. */
  function Polar(r: real, angle: int, t: Trig): Point {
    Point(r * t.cos(angle), r * t.sin(angle))
  }

  /** `if (cond) points.push(p)`. */
  function PushIf(ps: seq<Point>, cond: bool, p: Point): (r: seq<Point>)
    ensures |r| == |ps| + (if cond then 1 else 0)
    ensures r[..|ps|] == ps
    ensures cond ==> r[|ps|] == p
  {
    if cond then ps + [p] else ps
  }

  /** The points a conditional push leaves after position `k`: those that
      were there, and the pushed one when it was pushed. */
  lemma PushIfTail(ps: seq<Point>, k: int, cond: bool, p: Point)
    requires 0 <= k <= |ps|
    ensures forall q :: q in PushIf(ps, cond, p)[k..] <==> q in ps[k..] || (cond && q == p)
  {
    if cond {
      assert PushIf(ps, cond, p)[k..] == ps[k..] + [p];
    }
  }

  /** The candidate points of a partial ring sector, in the order they are
      pushed: the outer and inner arc ends, then the outer extreme of each
      cardinal direction the sector contains (right, bottom, left, top). */
  function DonutCandidates(arcAngle: int, outerRadius: real, innerRadius: real, t: Trig): (ps: seq<Point>)
    ensures 4 <= |ps| <= 8
    ensures ps[..4] == [Polar(outerRadius, StartAngle, t), Polar(outerRadius, EndAngle(arcAngle), t),
                        Polar(innerRadius, StartAngle, t), Polar(innerRadius, EndAngle(arcAngle), t)]
    ensures forall p :: p in ps[4..] <==>
      (CheckAngle(0, arcAngle) && p == Point(outerRadius, 0.0)) ||
      (CheckAngle(90, arcAngle) && p == Point(0.0, outerRadius)) ||
      (CheckAngle(180, arcAngle) && p == Point(-outerRadius, 0.0)) ||
      (CheckAngle(270, arcAngle) && p == Point(0.0, -outerRadius))
  {
    var s, e := StartAngle, EndAngle(arcAngle);
    var ends := [Polar(outerRadius, s, t), Polar(outerRadius, e, t), Polar(innerRadius, s, t), Polar(innerRadius, e, t)];
    var right := PushIf(ends, CheckAngle(0, arcAngle), Point(outerRadius, 0.0));
    var bottom := PushIf(right, CheckAngle(90, arcAngle), Point(0.0, outerRadius));
    var left := PushIf(bottom, CheckAngle(180, arcAngle), Point(-outerRadius, 0.0));
    var ps := PushIf(left, CheckAngle(270, arcAngle), Point(0.0, -outerRadius));
    PushIfTail(ends, 4, CheckAngle(0, arcAngle), Point(outerRadius, 0.0));
    PushIfTail(right, 4, CheckAngle(90, arcAngle), Point(0.0, outerRadius));
    PushIfTail(bottom, 4, CheckAngle(180, arcAngle), Point(-outerRadius, 0.0));
    PushIfTail(left, 4, CheckAngle(270, arcAngle), Point(0.0, -outerRadius));
    assert ps[..4] == left[..4] == bottom[..4] == right[..4] == ends;
    ps
  }

  /** The pivot of a ring sector in its own frame: the centre of the
      bounding box of its candidate points; a whole ring pivots about its
      own centre. */
  function DonutOffset(arcAngle: int, outerRadius: real, innerRadius: real, t: Trig): Point {
    if arcAngle == 360 then Point(0.0, 0.0)
    else Center(BoundingBox(DonutCandidates(arcAngle, outerRadius, innerRadius, t)))
  }

  /** `calculateDonutOffset`, which collects the candidates into a list and
      folds their bounds. */
  method CalculateDonutOffset(arcAngle: int, outerRadius: real, innerRadius: real, t: Trig)
    returns (offset: Point)
    ensures offset == DonutOffset(arcAngle, outerRadius, innerRadius, t)
  {
    if arcAngle == 360 {
      return Point(0.0, 0.0);
    }
    var startAngle := StartAngle;
    var endAngle := EndAngle(arcAngle);

    var points: seq<Point> := [];
    points := points + [Polar(outerRadius, startAngle, t)];
    points := points + [Polar(outerRadius, endAngle, t)];
    points := points + [Polar(innerRadius, startAngle, t)];
    points := points + [Polar(innerRadius, endAngle, t)];
    if CheckAngle(0, arcAngle) { points := points + [Point(outerRadius, 0.0)]; }
    if CheckAngle(90, arcAngle) { points := points + [Point(0.0, outerRadius)]; }
    if CheckAngle(180, arcAngle) { points := points + [Point(-outerRadius, 0.0)]; }
    if CheckAngle(270, arcAngle) { points := points + [Point(0.0, -outerRadius)]; }
    assert points == DonutCandidates(arcAngle, outerRadius, innerRadius, t);

    // The fold starts at the first point: the source's infinite initial
    // bounds are the identities of min and max, and there are always points.
    var minX, maxX, minY, maxY := points[0].x, points[0].x, points[0].y, points[0].y;
    var i := 1;
    while i < |points|
      invariant 1 <= i <= |points|
      invariant Box(minX, maxX, minY, maxY) == BoundingBox(points[..i])
    {
      var p := points[i];
      AddNextPoint(points, i);
      minX := Min(minX, p.x);
      maxX := Max(maxX, p.x);
      minY := Min(minY, p.y);
      maxY := Max(maxY, p.y);
      i := i + 1;
    }
    assert points[..i] == points;
    offset := Point((minX + maxX) / 2.0, (minY + maxY) / 2.0);
  }

  /** Every candidate lies in the box centred on the offset, within half the
      box's extent on each axis. */
  lemma DonutCandidatesAroundOffset(arcAngle: int, outerRadius: real, innerRadius: real, t: Trig)
    ensures var ps := DonutCandidates(arcAngle, outerRadius, innerRadius, t);
      var b := BoundingBox(ps);
      var c := Center(b);
      forall i :: 0 <= i < |ps| ==>
        c.x - (b.maxX - b.minX) / 2.0 <= ps[i].x <= c.x + (b.maxX - b.minX) / 2.0 &&
        c.y - (b.maxY - b.minY) / 2.0 <= ps[i].y <= c.y + (b.maxY - b.minY) / 2.0
  {
    BoundingBoxIsTight(DonutCandidates(arcAngle, outerRadius, innerRadius, t));
  }

  /** Each cardinal direction the sector contains pushes the box out to the
      outer radius on that side. */
  lemma DonutBoxReachesCardinals(arcAngle: int, outerRadius: real, innerRadius: real, t: Trig)
    ensures var b := BoundingBox(DonutCandidates(arcAngle, outerRadius, innerRadius, t));
      (CheckAngle(0, arcAngle) ==> b.maxX >= outerRadius) &&
      (CheckAngle(90, arcAngle) ==> b.maxY >= outerRadius) &&
      (CheckAngle(180, arcAngle) ==> b.minX <= -outerRadius) &&
      (CheckAngle(270, arcAngle) ==> b.minY <= -outerRadius)
  {
    var s, e := StartAngle, EndAngle(arcAngle);
    var ends := [Polar(outerRadius, s, t), Polar(outerRadius, e, t), Polar(innerRadius, s, t), Polar(innerRadius, e, t)];
    var right := PushIf(ends, CheckAngle(0, arcAngle), Point(outerRadius, 0.0));
    var bottom := PushIf(right, CheckAngle(90, arcAngle), Point(0.0, outerRadius));
    var left := PushIf(bottom, CheckAngle(180, arcAngle), Point(-outerRadius, 0.0));
    var ps := PushIf(left, CheckAngle(270, arcAngle), Point(0.0, -outerRadius));
    assert ps == DonutCandidates(arcAngle, outerRadius, innerRadius, t);
    BoundingBoxIsTight(ps);
    // Pushed points keep their places.
    assert ps[..|left|][..|bottom|] == bottom;
    assert ps[..|left|][..|bottom|][..|right|] == right;
    if CheckAngle(0, arcAngle) { assert ps[|ends|] == right[|ends|]; }
    if CheckAngle(90, arcAngle) { assert ps[|right|] == bottom[|right|]; }
    if CheckAngle(180, arcAngle) { assert ps[|bottom|] == left[|bottom|]; }
  }

  /** The candidates of a quarter ring from the top to the right: the four
      arc ends, then the right and top extremes of the outer circle. */
  lemma DonutQuarterCandidates(r: real, innerRadius: real, t: Trig)
    requires ValidTrig(t)
    ensures DonutCandidates(90, r, innerRadius, t) ==
      [Point(0.0, -r), Point(r, 0.0), Point(0.0, -innerRadius), Point(innerRadius, 0.0), Point(r, 0.0), Point(0.0, -r)]
  {
    QuarterSectorCardinals();
    var top, right := Point(0.0, -r), Point(r, 0.0);
    var innerTop, innerRight := Point(0.0, -innerRadius), Point(innerRadius, 0.0);
    assert Polar(r, StartAngle, t) == top && Polar(r, EndAngle(90), t) == right;
    assert Polar(innerRadius, StartAngle, t) == innerTop && Polar(innerRadius, EndAngle(90), t) == innerRight;
    var ends := [top, right, innerTop, innerRight];
    var withRight := PushIf(ends, true, right);
    var withBottom := PushIf(withRight, false, Point(0.0, r));
    var withLeft := PushIf(withBottom, false, Point(-r, 0.0));
    var ps := PushIf(withLeft, true, top);
    assert ps == [top, right, innerTop, innerRight, right, top];
  }

  /** A quarter ring from the top to the right: its box spans the top-right
      quadrant of the outer circle, whatever the inner radius, so the pivot
      is half the outer radius right of and above the centre. */
  lemma DonutQuarterOffset(outerRadius: real, innerRadius: real, t: Trig)
    requires ValidTrig(t)
    requires 0.0 <= innerRadius <= outerRadius
    ensures DonutOffset(90, outerRadius, innerRadius, t) == Point(outerRadius / 2.0, -outerRadius / 2.0)
  {
    var r := outerRadius;
    var top, right := Point(0.0, -r), Point(r, 0.0);
    var innerTop, innerRight := Point(0.0, -innerRadius), Point(innerRadius, 0.0);
    var ps := [top, right, innerTop, innerRight, right, top];
    DonutQuarterCandidates(r, innerRadius, t);
    // Grow the box one candidate at a time.
    assert BoundingBox([top]) == Box(0.0, 0.0, -r, -r);
    AddPoint([top], right);
    assert [top] + [right] == ps[..2];
    assert BoundingBox(ps[..2]) == Box(0.0, r, -r, 0.0);
    AddPoint(ps[..2], innerTop);
    assert ps[..2] + [innerTop] == ps[..3];
    assert BoundingBox(ps[..3]) == Box(0.0, r, -r, 0.0);
    AddPoint(ps[..3], innerRight);
    assert ps[..3] + [innerRight] == ps[..4];
    assert BoundingBox(ps[..4]) == Box(0.0, r, -r, 0.0);
    AddPoint(ps[..4], right);
    assert ps[..4] + [right] == ps[..5];
    assert BoundingBox(ps[..5]) == Box(0.0, r, -r, 0.0);
    AddPoint(ps[..5], top);
    assert ps[..5] + [top] == ps;
    assert BoundingBox(ps) == Box(0.0, r, -r, 0.0);
  }

  // ---------------------------------------------------------------------
  // Fan sectors (`calculateCircleOffset`)

  /** Radius of the disc image and centre of its 1024x1024 frame. */
  const DiscRadius: real := 512.0
  const DiscCentre: real := 512.0

  /** The point of the disc's rim in direction `angle`, in the image's frame. */
  function DiscPoint(angle: int, t: Trig): Point {
    Point(DiscCentre + DiscRadius * t.cos(angle), DiscCentre + DiscRadius * t.sin(angle))
  }

  /** The candidate points of a fan sector in the disc image's frame: the
      centre, the two arc ends, and the disc's extreme on each side whose
      cardinal direction the sector contains. */
  function CircleCandidates(arcAngle: int, t: Trig): (ps: seq<Point>)
    ensures 3 <= |ps| <= 7
    ensures ps[..3] == [Point(DiscCentre, DiscCentre), DiscPoint(StartAngle, t), DiscPoint(EndAngle(arcAngle), t)]
    ensures forall p :: p in ps[3..] <==>
      (CheckAngle(0, arcAngle) && p == Point(DiscCentre + DiscRadius, DiscCentre)) ||
      (CheckAngle(90, arcAngle) && p == Point(DiscCentre, DiscCentre + DiscRadius)) ||
      (CheckAngle(180, arcAngle) && p == Point(DiscCentre - DiscRadius, DiscCentre)) ||
      (CheckAngle(270, arcAngle) && p == Point(DiscCentre, DiscCentre - DiscRadius))
  {
    var r, c := DiscRadius, DiscCentre;
    var s, e := StartAngle, EndAngle(arcAngle);
    var ends := [Point(c, c), DiscPoint(s, t), DiscPoint(e, t)];
    var right := PushIf(ends, CheckAngle(0, arcAngle), Point(c + r, c));
    var bottom := PushIf(right, CheckAngle(90, arcAngle), Point(c, c + r));
    var left := PushIf(bottom, CheckAngle(180, arcAngle), Point(c - r, c));
    var ps := PushIf(left, CheckAngle(270, arcAngle), Point(c, c - r));
    PushIfTail(ends, 3, CheckAngle(0, arcAngle), Point(c + r, c));
    PushIfTail(right, 3, CheckAngle(90, arcAngle), Point(c, c + r));
    PushIfTail(bottom, 3, CheckAngle(180, arcAngle), Point(c - r, c));
    PushIfTail(left, 3, CheckAngle(270, arcAngle), Point(c, c - r));
    assert ps[..3] == left[..3] == bottom[..3] == right[..3] == ends;
    ps
  }

  /** The rim's extreme in each cardinal direction: right, bottom, left,
      top. */
  predicate IsCardinalExtreme(p: Point) {
    p == Point(DiscCentre + DiscRadius, DiscCentre) || p == Point(DiscCentre, DiscCentre + DiscRadius) ||
    p == Point(DiscCentre - DiscRadius, DiscCentre) || p == Point(DiscCentre, DiscCentre - DiscRadius)
  }

  /** The box of the centre and the two arc ends holds the centre. */
  lemma CircleEndsBox(s: Point, e: Point)
    ensures BoundingBox([Point(DiscCentre, DiscCentre), s, e]) ==
      Box(Min(Min(DiscCentre, s.x), e.x), Max(Max(DiscCentre, s.x), e.x),
          Min(Min(DiscCentre, s.y), e.y), Max(Max(DiscCentre, s.y), e.y))
    ensures Inside(Point(DiscCentre, DiscCentre), BoundingBox([Point(DiscCentre, DiscCentre), s, e]))
  {
    var c := Point(DiscCentre, DiscCentre);
    AddPoint([c], s);
    assert [c] + [s] == [c, s];
    AddPoint([c, s], e);
    assert [c, s] + [e] == [c, s, e];
  }

  /** Adding the rim's extreme in a cardinal direction to points whose box
      holds the centre moves only the bound on that side. */
  lemma GrowToCardinal(ps: seq<Point>, b: Box, p: Point)
    requires |ps| > 0 && b == BoundingBox(ps)
    requires Inside(Point(DiscCentre, DiscCentre), b)
    requires IsCardinalExtreme(p)
    ensures BoundingBox(ps + [p]) ==
      if p.x > DiscCentre then b.(maxX := Max(b.maxX, p.x))
      else if p.y > DiscCentre then b.(maxY := Max(b.maxY, p.y))
      else if p.x < DiscCentre then b.(minX := Min(b.minX, p.x))
      else b.(minY := Min(b.minY, p.y))
    ensures Inside(Point(DiscCentre, DiscCentre), BoundingBox(ps + [p]))
  {
    AddPoint(ps, p);
  }

  /** The pivot of a fan sector in the disc image's frame: the centre of
      the bounding box of its candidate points; a whole disc pivots about
      the image's centre. */
  function CircleOffset(arcAngle: int, t: Trig): Point {
    if arcAngle == 360 then Point(DiscCentre, DiscCentre)
    else Center(BoundingBox(CircleCandidates(arcAngle, t)))
  }

  /** `calculateCircleOffset`, which grows the box step by step: both arc
      ends first, then one side per contained cardinal direction. */
  method CalculateCircleOffset(arcAngle: int, t: Trig) returns (offset: Point)
    ensures offset == CircleOffset(arcAngle, t)
  {
    if arcAngle == 360 {
      return Point(DiscCentre, DiscCentre);
    }
    var r := DiscRadius;
    var startAngle := StartAngle;
    var endAngle := EndAngle(arcAngle);

    var start, end := DiscPoint(startAngle, t), DiscPoint(endAngle, t);
    var minX, maxX, minY, maxY := DiscCentre, DiscCentre, DiscCentre, DiscCentre;
    minX := Min(Min(minX, start.x), end.x);
    maxX := Max(Max(maxX, start.x), end.x);
    minY := Min(Min(minY, start.y), end.y);
    maxY := Max(Max(maxY, start.y), end.y);

    // The points seen so far. The centre among them keeps each bound on
    // its side of the centre, so a cardinal extreme moves one bound only.
    ghost var ps := [Point(DiscCentre, DiscCentre), start, end];
    CircleEndsBox(start, end);

    var right, bottom, left, top := CheckAngle(0, arcAngle), CheckAngle(90, arcAngle),
                                    CheckAngle(180, arcAngle), CheckAngle(270, arcAngle);
    if right {
      GrowToCardinal(ps, Box(minX, maxX, minY, maxY), Point(DiscCentre + r, DiscCentre));
      maxX := Max(maxX, DiscCentre + r);
    }
    ps := PushIf(ps, right, Point(DiscCentre + r, DiscCentre));
    if bottom {
      GrowToCardinal(ps, Box(minX, maxX, minY, maxY), Point(DiscCentre, DiscCentre + r));
      maxY := Max(maxY, DiscCentre + r);
    }
    ps := PushIf(ps, bottom, Point(DiscCentre, DiscCentre + r));
    if left {
      GrowToCardinal(ps, Box(minX, maxX, minY, maxY), Point(DiscCentre - r, DiscCentre));
      minX := Min(minX, DiscCentre - r);
    }
    ps := PushIf(ps, left, Point(DiscCentre - r, DiscCentre));
    if top {
      GrowToCardinal(ps, Box(minX, maxX, minY, maxY), Point(DiscCentre, DiscCentre - r));
      minY := Min(minY, DiscCentre - r);
    }
    ps := PushIf(ps, top, Point(DiscCentre, DiscCentre - r));
    assert ps == CircleCandidates(arcAngle, t);
    offset := Point((minX + maxX) / 2.0, (minY + maxY) / 2.0);
  }

  /** The fan's box always holds the disc centre, so each pivot coordinate
      lies between a quarter and three quarters of the 1024-pixel frame. */
  lemma CircleOffsetInRange(arcAngle: int, t: Trig)
    requires ValidTrig(t)
    ensures var b := BoundingBox(CircleCandidates(arcAngle, t));
      b.minX <= DiscCentre <= b.maxX && b.minY <= DiscCentre <= b.maxY
    ensures var c := CircleOffset(arcAngle, t);
      256.0 <= c.x <= 768.0 && 256.0 <= c.y <= 768.0
  {
    var ps := CircleCandidates(arcAngle, t);
    var s, e := StartAngle, EndAngle(arcAngle);
    assert -1.0 <= t.cos(s) <= 1.0 && -1.0 <= t.sin(s) <= 1.0;
    assert -1.0 <= t.cos(e) <= 1.0 && -1.0 <= t.sin(e) <= 1.0;
    BoundingBoxWithin(ps, 0.0, 1024.0);
    BoundingBoxIsTight(ps);
    assert Inside(ps[0], BoundingBox(ps));
  }

  /** A quarter fan from the top to the right spans the top-right quadrant
      of the disc image. */
  lemma CircleQuarterOffset(t: Trig)
    requires ValidTrig(t)
    ensures CircleOffset(90, t) == Point(768.0, 256.0)
  {
    QuarterSectorCardinals();
    var centre, top, right := Point(512.0, 512.0), Point(512.0, 0.0), Point(1024.0, 512.0);
    var ends := [centre, top, right];
    assert CircleCandidates(90, t) == ends + [right] + [top];
    var b := Box(512.0, 1024.0, 0.0, 512.0);
    CircleEndsBox(top, right);
    assert BoundingBox(ends) == b;
    GrowToCardinal(ends, b, right);
    GrowToCardinal(ends + [right], b, top);
  }

  // ---------------------------------------------------------------------
  // Text width (`calcTextWidth`)

  /** Estimated width of one UTF-16 code unit: a fixed share of the font
      size, doubled outside ASCII. */
  function CharWidth(c: char, fontSize: real): real {
    var average := fontSize * 0.6;
    if (c as int) < 128 then average else average * 2.0
  }

  /** The running sum that `calcTextWidth` accumulates, code unit by code
      unit from the left. */
  function TextWidth(text: string, fontSize: real): real {
    if |text| == 0 then 0.0
    else TextWidth(text[..|text| - 1], fontSize) + CharWidth(text[|text| - 1], fontSize)
  }

  /** The number of code units at or above 128. */
  function NonAsciiCount(text: string): (n: nat)
    ensures n <= |text|
  {
    if |text| == 0 then 0
    else NonAsciiCount(text[..|text| - 1]) + (if (text[|text| - 1] as int) < 128 then 0 else 1)
  }

  /** `calcTextWidth`. */
  method CalcTextWidth(text: string, fontSize: real) returns (width: real)
    ensures width == TextWidth(text, fontSize)
  {
    var averageCharWidth := fontSize * 0.6;
    width := 0.0;
    for i := 0 to |text|
      invariant width == TextWidth(text[..i], fontSize)
    {
      var isAscii := (text[i] as int) < 128;
      width := width + if isAscii then averageCharWidth else averageCharWidth * 2.0;
      assert text[..i + 1][..i] == text[..i];
    }
    assert text[..|text|] == text;
  }

  /** The width is the average width times the number of code units, each
      non-ASCII unit counted twice. */
  lemma {:induction false} TextWidthClosedForm(text: string, fontSize: real)
    ensures TextWidth(text, fontSize) == fontSize * 0.6 * ((|text| + NonAsciiCount(text)) as real)
  {
    if |text| > 0 {
      TextWidthClosedForm(text[..|text| - 1], fontSize);
    }
  }

  /** Between one and two average widths per code unit; the empty text is
      zero wide. */
  lemma TextWidthBounds(text: string, fontSize: real)
    requires fontSize >= 0.0
    ensures fontSize * 0.6 * (|text| as real) <= TextWidth(text, fontSize) <= fontSize * 1.2 * (|text| as real)
    ensures text == [] ==> TextWidth(text, fontSize) == 0.0
  {
  }
}
