/**
 * Connection points and link curves
 * (src/app/features/tools/board/services/board-geometry.ts): where a card's
 * connection points are, which one is nearest a point, and the cubic Bezier
 * curve a link is drawn along. Coordinates are board units, as reals.
 */
module BoardGeometry {
  import opened Wrappers
  import opened BoardModels
  import Strings

  datatype Pt = Pt(x: real, y: real)

  /** The four mid-side points every card has unless it declares its own. */
  function DefaultConnectionPoints(): (r: seq<ConnectionPoint>)
    ensures |r| == 4
    ensures forall i :: 0 <= i < 4 ==> r[i].hotRadius == Some(1.2) && r[i].shape == Some(CircleCp)
    ensures r[0].id == "top" && r[1].id == "right" && r[2].id == "bottom" && r[3].id == "left"
  {
    [ ConnectionPoint("top", 0.5, 0.0, Some(CircleCp), Some(1.2)),
      ConnectionPoint("right", 1.0, 0.5, Some(CircleCp), Some(1.2)),
      ConnectionPoint("bottom", 0.5, 1.0, Some(CircleCp), Some(1.2)),
      ConnectionPoint("left", 0.0, 0.5, Some(CircleCp), Some(1.2)) ]
  }

  /** `getConnectionPoints(card)`: the card's own points when it has any, else the defaults; never empty. */
  function ConnectionPoints(card: CardModel): (r: seq<ConnectionPoint>)
    ensures |r| > 0
    ensures card.connectionPoints.Some? && |card.connectionPoints.value| > 0 ==> r == card.connectionPoints.value
    ensures card.connectionPoints.None? || |card.connectionPoints.value| == 0 ==> r == DefaultConnectionPoints()
  {
    if card.connectionPoints.Some? && |card.connectionPoints.value| > 0 then card.connectionPoints.value
    else DefaultConnectionPoints()
  }

  /** A product of two non-negative reals is non-negative. */
  lemma MulNonNeg(a: real, b: real)
    requires a >= 0.0 && b >= 0.0
    ensures a * b >= 0.0
  {
  }

  /** A fraction in `[0, 1]` of a non-negative length is at most that length. */
  lemma FractionOf(f: real, w: real)
    requires 0.0 <= f <= 1.0 && w >= 0.0
    ensures 0.0 <= f * w <= w
  {
    MulNonNeg(f, w);
    MulNonNeg(1.0 - f, w);
    assert w - f * w == (1.0 - f) * w;
  }

  /** The distance `rel * size` along a side: within the side for a fraction in `[0, 1]`. */
  function Along(rel: real, size: real): (d: real)
    ensures 0.0 <= rel <= 1.0 && size >= 0.0 ==> 0.0 <= d <= size
    ensures rel == 0.0 ==> d == 0.0
  {
    if 0.0 <= rel <= 1.0 && size >= 0.0 then FractionOf(rel, size); rel * size
    else rel * size
  }

  /** `toCardAbsoluteUnits(card, cp)`: a point with relative coordinates in `[0, 1]` lies on the card's rectangle. */
  function ToCardAbsoluteUnits(card: CardModel, cp: ConnectionPoint): (p: Pt)
    ensures 0.0 <= cp.relX <= 1.0 && card.width >= 0.0 ==> card.x <= p.x <= card.x + card.width
    ensures 0.0 <= cp.relY <= 1.0 && card.height >= 0.0 ==> card.y <= p.y <= card.y + card.height
    ensures cp.relX == 0.0 ==> p.x == card.x
    ensures cp.relY == 0.0 ==> p.y == card.y
  {
    Pt(card.x + Along(cp.relX, card.width), card.y + Along(cp.relY, card.height))
  }

  /** The squared distance from `(x, y)` to a connection point of the card. */
  function Dist2(card: CardModel, cp: ConnectionPoint, x: real, y: real): (d: real)
    ensures d >= 0.0
  {
    var p := ToCardAbsoluteUnits(card, cp);
    (p.x - x) * (p.x - x) + (p.y - y) * (p.y - y)
  }

  /**
   * The index `nearestConnectionPoint`'s loop has settled on after the
   * first `n` points: a nearest one, the first of equally near ones.
   */
  function NearestIndex(card: CardModel, cps: seq<ConnectionPoint>, x: real, y: real, n: nat): (k: nat)
    requires 1 <= n <= |cps|
    ensures k < n
    ensures forall j :: 0 <= j < n ==> Dist2(card, cps[k], x, y) <= Dist2(card, cps[j], x, y)
    ensures forall j :: 0 <= j < k ==> Dist2(card, cps[j], x, y) > Dist2(card, cps[k], x, y)
  {
    if n == 1 then 0
    else
      var k := NearestIndex(card, cps, x, y, n - 1);
      if Dist2(card, cps[n - 1], x, y) < Dist2(card, cps[k], x, y) then n - 1 else k
  }

  /** `nearestConnectionPoint(card, x, y)`: one of the card's points, no farther than any other. */
  function NearestConnectionPoint(card: CardModel, x: real, y: real): (cp: ConnectionPoint)
    ensures cp in ConnectionPoints(card)
    ensures forall c :: c in ConnectionPoints(card) ==> Dist2(card, cp, x, y) <= Dist2(card, c, x, y)
  {
    var cps := ConnectionPoints(card);
    cps[NearestIndex(card, cps, x, y, |cps|)]
  }

  datatype Direction = Left | Right | Up | Down

  /** `dominantDirectionForCp(cp)`: which way a link leaves the point. */
  function DominantDirection(cp: ConnectionPoint): (d: Direction)
    ensures d == Left <==> cp.relX <= 0.001
    ensures d == Right <==> 0.001 < cp.relX && cp.relX >= 0.999
    ensures d == Up <==> 0.001 < cp.relX < 0.999 && cp.relY <= 0.001
  {
    if cp.relX <= 0.001 then Left
    else if cp.relX >= 0.999 then Right
    else if cp.relY <= 0.001 then Up
    else Down
  }

  /** Each default point leads out of its own side. */
  lemma DefaultDirections()
    ensures var d := DefaultConnectionPoints();
      DominantDirection(d[0]) == Up && DominantDirection(d[1]) == Right
      && DominantDirection(d[2]) == Down && DominantDirection(d[3]) == Left
  {
  }

  datatype Endpoint = Endpoint(p: Pt, cp: ConnectionPoint)
  datatype Bezier = Bezier(p0: Pt, p1: Pt, p2: Pt, p3: Pt)

  /** The control point for an end: moved from `p` along `dir` by the handle length for that axis. */
  function Handle(p: Pt, dir: Direction, hx: real, hy: real): Pt {
    match dir
    case Left => Pt(p.x - hx, p.y)
    case Right => Pt(p.x + hx, p.y)
    case Up => Pt(p.x, p.y - hy)
    case Down => Pt(p.x, p.y + hy)
  }

  /** The offset of a control point from its end along its direction, `0.4·|dx|` or `0.4·|dy|` in the right sense. */
  predicate PulledAlong(p: Pt, h: Pt, dir: Direction, dx: real, dy: real) {
    match dir
    case Left => h.y == p.y && h.x == p.x - 0.4 * Abs(dx)
    case Right => h.y == p.y && h.x == p.x + 0.4 * Abs(dx)
    case Up => h.x == p.x && h.y == p.y - 0.4 * Abs(dy)
    case Down => h.x == p.x && h.y == p.y + 0.4 * Abs(dy)
  }

  /** `bezierForEndpoints(a, b)`: the ends stay, each handle moves only along its end's direction. */
  function BezierForEndpoints(a: Endpoint, b: Endpoint): (z: Bezier)
    ensures z.p0 == a.p && z.p3 == b.p
    ensures PulledAlong(a.p, z.p1, DominantDirection(a.cp), b.p.x - a.p.x, b.p.y - a.p.y)
    ensures PulledAlong(b.p, z.p2, DominantDirection(b.cp), b.p.x - a.p.x, b.p.y - a.p.y)
  {
    var dx := b.p.x - a.p.x;
    var dy := b.p.y - a.p.y;
    var hx := Abs(dx) * 0.4;
    var hy := Abs(dy) * 0.4;
    Bezier(a.p, Handle(a.p, DominantDirection(a.cp), hx, hy), Handle(b.p, DominantDirection(b.cp), hx, hy), b.p)
  }

  /** The four Bernstein weights of `cubicPoint` at `t`. */
  function Weights(t: real): (real, real, real, real) {
    var mt := 1.0 - t;
    (mt * mt * mt, 3.0 * mt * mt * t, 3.0 * mt * t * t, t * t * t)
  }

  /** `cubicPoint(p0, p1, p2, p3, t)`: the curve starts at `p0` and ends at `p3`. */
  function CubicPoint(p0: Pt, p1: Pt, p2: Pt, p3: Pt, t: real): (p: Pt)
    ensures t == 0.0 ==> p == p0
    ensures t == 1.0 ==> p == p3
  {
    var w := Weights(t);
    Pt(w.0 * p0.x + w.1 * p1.x + w.2 * p2.x + w.3 * p3.x,
       w.0 * p0.y + w.1 * p1.y + w.2 * p2.y + w.3 * p3.y)
  }

  /** The weights sum to one, so every point of the curve is an affine combination of the four. */
  lemma WeightsSumToOne(t: real)
    ensures var w := Weights(t); w.0 + w.1 + w.2 + w.3 == 1.0
  {
    var mt := 1.0 - t;
    calc {
      mt * mt * mt + 3.0 * mt * mt * t + 3.0 * mt * t * t + t * t * t;
      (mt + t) * (mt + t) * (mt + t);
      1.0;
    }
  }

  /** On `[0, 1]` no weight is negative, so the curve stays in the box of its four points. */
  lemma WeightsNonNegative(t: real)
    requires 0.0 <= t <= 1.0
    ensures var w := Weights(t); w.0 >= 0.0 && w.1 >= 0.0 && w.2 >= 0.0 && w.3 >= 0.0
  {
    var mt := 1.0 - t;
    MulNonNeg(mt, mt);
    MulNonNeg(t, t);
    MulNonNeg(mt * mt, mt);
    MulNonNeg(3.0 * mt * mt, t);
    MulNonNeg(3.0 * mt, t);
    MulNonNeg(3.0 * mt * t, t);
    MulNonNeg(t * t, t);
  }

  /** A curve whose four points coincide is that point throughout. */
  lemma ConstantCurve(p: Pt, t: real)
    ensures CubicPoint(p, p, p, p, t) == p
  {
    var w := Weights(t);
    WeightsSumToOne(t);
    assert w.0 * p.x + w.1 * p.x + w.2 * p.x + w.3 * p.x == (w.0 + w.1 + w.2 + w.3) * p.x;
    assert w.0 * p.y + w.1 * p.y + w.2 * p.y + w.3 * p.y == (w.0 + w.1 + w.2 + w.3) * p.y;
  }

  /**
   * `buildBezierPathD(p0, p1, p2, p3)`: one moveto and one curveto, in the
   * path-data grammar of section 8.3 of SVG 1.1; `fmt` is JavaScript's
   * number-to-string conversion.
   */
  function BezierPathD(z: Bezier, fmt: real -> string): (d: string)
    ensures |d| >= 2 && d[..2] == "M "
    ensures var head := "M " + fmt(z.p0.x) + " " + fmt(z.p0.y) + " C ";
      |head| <= |d| && d[..|head|] == head
  {
    "M " + fmt(z.p0.x) + " " + fmt(z.p0.y) + " C " + fmt(z.p1.x) + " " + fmt(z.p1.y) + ", "
      + fmt(z.p2.x) + " " + fmt(z.p2.y) + ", " + fmt(z.p3.x) + " " + fmt(z.p3.y)
  }

  /**
   * The space-separated words of a curve's path data: the moveto command and
   * its point, then the curveto command and its three points in order, the
   * first two points of the curveto each closed by a comma.
   */
  function PathWords(z: Bezier, fmt: real -> string): seq<string> {
    ["M", fmt(z.p0.x), fmt(z.p0.y), "C", fmt(z.p1.x), fmt(z.p1.y) + ",", fmt(z.p2.x), fmt(z.p2.y) + ",", fmt(z.p3.x), fmt(z.p3.y)]
  }

  /** With a number format that writes no space, splitting the path data on spaces gives its words back. */
  lemma BezierPathDWords(z: Bezier, fmt: real -> string)
    requires forall v: real :: ' ' !in fmt(v)
    ensures Strings.SplitOn(BezierPathD(z, fmt), ' ') == PathWords(z, fmt)
  {
    var w := PathWords(z, fmt);
    CommaAppended(fmt(z.p1.y));
    CommaAppended(fmt(z.p2.y));
    TenWords(w, ' ');
    PathTemplate(fmt(z.p0.x), fmt(z.p0.y), fmt(z.p1.x), fmt(z.p1.y), fmt(z.p2.x), fmt(z.p2.y), fmt(z.p3.x), fmt(z.p3.y));
  }

  /** Ten words free of `c`, each but the last followed by `c`, split on `c` into those words. */
  lemma TenWords(w: seq<string>, c: char)
    requires |w| == 10 && forall k :: 0 <= k < 10 ==> c !in w[k]
    ensures Strings.SplitOn(w[0] + [c] + (w[1] + [c] + (w[2] + [c] + (w[3] + [c] + (w[4] + [c] + (w[5] + [c]
      + (w[6] + [c] + (w[7] + [c] + (w[8] + [c] + w[9])))))))), c) == w
  {
    TenJoin(w, [c]);
    Strings.JoinSplitOn(w, c);
  }

  /** Ten words joined by a separator, written out. */
  lemma TenJoin(w: seq<string>, sep: string)
    requires |w| == 10
    ensures Strings.Join(w, sep) == w[0] + sep + (w[1] + sep + (w[2] + sep + (w[3] + sep + (w[4] + sep + (w[5] + sep
      + (w[6] + sep + (w[7] + sep + (w[8] + sep + w[9]))))))))
  {
    JoinFront(w, 8, sep);
    JoinFront(w, 7, sep);
    JoinFront(w, 6, sep);
    JoinFront(w, 5, sep);
    JoinFront(w, 4, sep);
    JoinFront(w, 3, sep);
    JoinFront(w, 2, sep);
    JoinFront(w, 1, sep);
    JoinFront(w, 0, sep);
    assert w[0..] == w;
  }

  /** The join of a suffix of at least two words is its first word, the separator and the join of the rest. */
  lemma JoinFront(w: seq<string>, k: nat, sep: string)
    requires k + 1 < |w|
    ensures Strings.Join(w[k..], sep) == w[k] + sep + Strings.Join(w[k + 1..], sep)
  {
    assert w[k..][1..] == w[k + 1..];
  }

  /** A comma put after a word brings no space into it. */
  lemma CommaAppended(a: string)
    requires ' ' !in a
    ensures ' ' !in a + ","
  {
    assert forall i :: 0 <= i < |a + ","| ==> (a + ",")[i] == if i < |a| then a[i] else ',';
  }

  /** The template read as words each followed by one space, the last alone. */
  lemma PathTemplate(x0: string, y0: string, x1: string, y1: string, x2: string, y2: string, x3: string, y3: string)
    ensures "M " + x0 + " " + y0 + " C " + x1 + " " + y1 + ", " + x2 + " " + y2 + ", " + x3 + " " + y3
      == "M" + [' '] + (x0 + [' '] + (y0 + [' '] + ("C" + [' '] + (x1 + [' '] + ((y1 + ",") + [' '] + (x2 + [' ']
         + ((y2 + ",") + [' '] + (x3 + [' '] + y3))))))))
  {
  }

  /** With an injective number format that writes no space, distinct curves have distinct path data. */
  lemma BezierPathDInjective(z1: Bezier, z2: Bezier, fmt: real -> string)
    requires forall v: real :: ' ' !in fmt(v)
    requires forall u: real, v: real :: fmt(u) == fmt(v) ==> u == v
    requires BezierPathD(z1, fmt) == BezierPathD(z2, fmt)
    ensures z1 == z2
  {
    BezierPathDWords(z1, fmt);
    BezierPathDWords(z2, fmt);
    var w1 := PathWords(z1, fmt);
    var w2 := PathWords(z2, fmt);
    assert w1 == w2;
    CommaDropped(fmt(z1.p1.y), fmt(z2.p1.y));
    CommaDropped(fmt(z1.p2.y), fmt(z2.p2.y));
  }

  /** Two words equal once a comma is put after each were equal before. */
  lemma CommaDropped(a: string, b: string)
    requires a + "," == b + ","
    ensures a == b
  {
    assert a == (a + ",")[..|a|];
    assert b == (b + ",")[..|b|];
  }
}
