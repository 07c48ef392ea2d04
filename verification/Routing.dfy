/**
 How edges bend: apart from the other edges between the same two nodes, and around the discs a
 straight line would cross. Coordinates and square roots are exact.

 An edge is the quadratic curve from centre to centre whose control point lies `bend` to the left of
 the midpoint. At parameter t it stands 2t(1-t)*bend to the left of the straight line, so at the point
 of the line nearest an obstacle its distance from the obstacle's centre is a linear function of the
 bend.
 */
module Routing {
  import opened Tallies
  import opened Ordering
  import Separation

  const BEND_STEP := 22
  const EDGE_CLEARANCE := 14.0
  const MAX_BEND_RATIO := 0.9

  datatype Disc = Disc(x: real, y: real, r: real)

  datatype Vector = Vector(x: real, y: real)

  /** A straight edge: its ends, and the distance between their centres. */
  datatype Line = Line(a: Disc, b: Disc, length: real) {
    function Dx(): real { b.x - a.x }
    function Dy(): real { b.y - a.y }

    predicate Proper() { length > 0.0 && Square(length) == Square(Dx()) + Square(Dy()) }

    /** The unit vector to the left of travel; y points down, as on screen. */
    function Left(): Vector
      requires length > 0.0
    {
      Vector(Dy() / length, -Dx() / length)
    }

    function Reversed(): Line { Line(b, a, length) }
  }

  function Square(x: real): real { x * x }
  function Abs(x: real): real { if x < 0.0 then -x else x }
  function Larger(x: real, y: real): real { if x < y then y else x }
  function Smaller(x: real, y: real): real { if y < x then y else x }

  // ---------- the curve ----------

  function Middle(a: real, b: real): real { (a + b) / 2.0 }

  /** One coordinate of the quadratic curve from `a` to `b` whose control is `bend * side` off the middle. */
  function Bow(a: real, b: real, side: real, bend: real, t: real): real {
    var c := Middle(a, b) + side * bend;
    (1.0 - t) * (1.0 - t) * a + 2.0 * t * (1.0 - t) * c + t * t * b
  }

  function Curve(l: Line, bend: real, t: real): Vector
    requires l.length > 0.0
  {
    Vector(Bow(l.a.x, l.b.x, l.Left().x, bend, t), Bow(l.a.y, l.b.y, l.Left().y, bend, t))
  }

  /** How far along the line the obstacle projects, and how far to the left of the line it lies. */
  function Along(l: Line, o: Disc): real
    requires l.length > 0.0
  {
    ((o.x - l.a.x) * l.Dx() + (o.y - l.a.y) * l.Dy()) / (l.length * l.length)
  }

  function Offset(l: Line, o: Disc): real
    requires l.length > 0.0
  {
    (o.x - Middle(l.a.x, l.b.x)) * l.Left().x + (o.y - Middle(l.a.y, l.b.y)) * l.Left().y
  }

  function Sway(t: real): real { 2.0 * t * (1.0 - t) }

  function Reach(o: Disc): real { o.r + EDGE_CLEARANCE }

  function Distance2(p: Vector, o: Disc): real { Square(p.x - o.x) + Square(p.y - o.y) }

  /** The curve leaves the straight line sideways only, by 2t(1-t) times the bend. */
  lemma Sways(a: real, b: real, side: real, bend: real, t: real)
    ensures Bow(a, b, side, bend, t) == a + t * (b - a) + Sway(t) * bend * side
  {
    var s, m, h := 1.0 - t, Middle(a, b), side * bend;
    assert 2.0 * t * s * (m + h) == 2.0 * t * s * m + 2.0 * t * s * h;
    assert 2.0 * t * s * m == t * s * (a + b) == t * s * a + t * s * b;
    assert s * s * a + t * s * a == (s + t) * s * a;
    assert t * s * b + t * t * b == (s + t) * t * b;
    assert 2.0 * t * s * h == Sway(t) * bend * side;
  }

  /** The unit vector along a line: (e, f), so that left of it is (f, -e). */
  lemma Direction(l: Line) returns (e: real, f: real)
    requires l.Proper()
    ensures e * l.length == l.Dx() && f * l.length == l.Dy() && Square(e) + Square(f) == 1.0
    ensures l.Left() == Vector(f, -e) && Square(l.Left().x) + Square(l.Left().y) == 1.0
  {
    var n := l.length;
    e, f := l.Dx() / n, l.Dy() / n;
    assert e * n == l.Dx() && f * n == l.Dy() && -l.Dx() / n == -e;
    Normalised(e, f, n, l.Dx(), l.Dy());
    assert Square(-e) == Square(e);
  }

  lemma Normalised(e: real, f: real, n: real, dx: real, dy: real)
    requires n > 0.0 && e * n == dx && f * n == dy && Square(n) == Square(dx) + Square(dy)
    ensures Square(e) + Square(f) == 1.0
  {
    hide Square;
    Positive(n);
    SquareOfProduct(e, n, dx);
    SquareOfProduct(f, n, dy);
    SharesOfOne(Square(e), Square(f), Square(n), Square(dx), Square(dy));
  }

  lemma SquareOfProduct(e: real, n: real, x: real)
    requires e * n == x
    ensures Square(x) == Square(e) * Square(n)
  {
    assert x * x == (e * n) * (e * n);
  }

  lemma SharesOfOne(p: real, q: real, m: real, x: real, y: real)
    requires m > 0.0 && x == p * m && y == q * m && m == x + y
    ensures p + q == 1.0
  {
    ZeroFactor(p + q - 1.0, m);
  }

  lemma Positive(n: real)
    requires n > 0.0
    ensures Square(n) > 0.0
  {
    ProductPositive(n, n, Square(n));
  }

  lemma ProductPositive(a: real, b: real, c: real)
    requires a > 0.0 && b > 0.0 && c == a * b
    ensures c > 0.0
  {
  }

  lemma ZeroFactor(k: real, m: real)
    requires m > 0.0 && k * m == 0.0
    ensures k == 0.0
  {
  }

  /** A vector is its part along a direction plus its part across it. */
  lemma Decompose(u: real, v: real, e: real, f: real)
    requires Square(e) + Square(f) == 1.0
    ensures u == (u * e + v * f) * e + (u * f - v * e) * f
    ensures v == (u * e + v * f) * f - (u * f - v * e) * e
  {
    assert (u * e + v * f) * e == u * (e * e) + v * f * e;
    assert (u * f - v * e) * f == u * (f * f) - v * e * f;
    assert (u * e + v * f) * f == u * e * f + v * (f * f);
    assert (u * f - v * e) * e == u * f * e - v * (e * e);
    assert u * (e * e) + u * (f * f) == u * (e * e + f * f);
    assert v * (e * e) + v * (f * f) == v * (e * e + f * f);
  }

  lemma AlongIs(l: Line, o: Disc, e: real, f: real)
    requires l.Proper() && e * l.length == l.Dx() && f * l.length == l.Dy()
    ensures Along(l, o) * l.length == (o.x - l.a.x) * e + (o.y - l.a.y) * f
  {
    hide Square;
    var n, u, v := l.length, o.x - l.a.x, o.y - l.a.y;
    CommonFactor(u, v, e, f, n, l.Dx(), l.Dy());
    Ratio(u * e + v * f, n, u * l.Dx() + v * l.Dy());
  }

  lemma CommonFactor(u: real, v: real, e: real, f: real, n: real, x: real, y: real)
    requires e * n == x && f * n == y
    ensures u * x + v * y == (u * e + v * f) * n
  {
    assert u * x == (u * e) * n && v * y == (v * f) * n;
  }

  lemma Ratio(w: real, n: real, p: real)
    requires n > 0.0 && p == w * n
    ensures n * n != 0.0 && p / (n * n) * n == w
  {
    Positive(n);
    var r := p / (n * n);
    assert r * (n * n) == p;
    assert (r * n - w) * n == 0.0;
    ZeroFactor(r * n - w, n);
  }

  lemma OffsetIs(l: Line, o: Disc, e: real, f: real)
    requires l.Proper() && e * l.length == l.Dx() && f * l.length == l.Dy() && l.Left() == Vector(f, -e)
    ensures Offset(l, o) == (o.x - l.a.x) * f - (o.y - l.a.y) * e
  {
    var n, u, v := l.length, o.x - l.a.x, o.y - l.a.y;
    assert o.x - Middle(l.a.x, l.b.x) == u - e * n / 2.0 && o.y - Middle(l.a.y, l.b.y) == v - f * n / 2.0;
    assert (u - e * n / 2.0) * f == u * f - e * n * f / 2.0;
    assert (v - f * n / 2.0) * e == v * e - e * n * f / 2.0;
  }

  /** An obstacle's centre is its foot on the line plus its offset to the left. */
  lemma FootAndOffset(l: Line, o: Disc)
    requires l.Proper()
    ensures o.x == l.a.x + Along(l, o) * l.Dx() + Offset(l, o) * l.Left().x
    ensures o.y == l.a.y + Along(l, o) * l.Dy() + Offset(l, o) * l.Left().y
  {
    var e, f := Direction(l);
    AlongIs(l, o, e, f);
    OffsetIs(l, o, e, f);
    hide Along, Offset;
    Decompose(o.x - l.a.x, o.y - l.a.y, e, f);
    Scaled(Along(l, o), l.length, e, (o.x - l.a.x) * e + (o.y - l.a.y) * f);
    Scaled(Along(l, o), l.length, f, (o.x - l.a.x) * e + (o.y - l.a.y) * f);
  }

  lemma Scaled(t: real, n: real, e: real, w: real)
    requires t * n == w
    ensures t * (e * n) == w * e
  {
    assert t * (e * n) == (t * n) * e;
  }

  /** How far to the left of the obstacle's centre the curve stands where the obstacle projects. */
  function Gap(l: Line, o: Disc, bend: real): real
    requires l.length > 0.0
  {
    Sway(Along(l, o)) * bend - Offset(l, o)
  }

  /** That gap is all there is between them. */
  lemma PassesAt(l: Line, o: Disc, bend: real)
    requires l.Proper()
    ensures Distance2(Curve(l, bend, Along(l, o)), o) == Square(Gap(l, o, bend))
  {
    hide Along, Offset, Bow, Square, Sway, Distance2;
    var e, f := Direction(l);
    FootAndOffset(l, o);
    var t := Along(l, o);
    Sways(l.a.x, l.b.x, l.Left().x, bend, t);
    Sways(l.a.y, l.b.y, l.Left().y, bend, t);
    Sideways(Curve(l, bend, t), o, Sway(t) * bend, Offset(l, o), Gap(l, o, bend), l.Left());
  }

  lemma Sideways(c: Vector, o: Disc, k: real, d: real, w: real, left: Vector)
    requires Square(left.x) + Square(left.y) == 1.0 && w == k - d
    requires c.x - o.x == k * left.x - d * left.x && c.y - o.y == k * left.y - d * left.y
    ensures Distance2(c, o) == Square(w)
  {
    assert c.x - o.x == left.x * w && c.y - o.y == left.y * w;
    SquareOfProduct(left.x, w, c.x - o.x);
    SquareOfProduct(left.y, w, c.y - o.y);
    hide Square;
    assert Square(left.x) * Square(w) + Square(left.y) * Square(w) == (Square(left.x) + Square(left.y)) * Square(w);
  }

  // ---------- what it takes to clear an obstacle ----------

  /** The straight line comes within reach of the disc, between its ends. */
  predicate Blocks(l: Line, o: Disc)
    requires l.length > 0.0
  {
    0.0 < Along(l, o) < 1.0 && Abs(Offset(l, o)) < Reach(o)
  }

  function Dot(x: real, y: real, u: real, v: real): real { x * u + y * v }

  /**
   A disc is in the way exactly when its centre projects strictly between the two ends, seen from either of
   them, and lies within its radius and the clearance of the straight line there.
   */
  lemma BlocksIff(l: Line, o: Disc)
    requires l.Proper()
    ensures Blocks(l, o) <==>
      && Dot(o.x - l.a.x, o.y - l.a.y, l.b.x - l.a.x, l.b.y - l.a.y) > 0.0
      && Dot(o.x - l.b.x, o.y - l.b.y, l.a.x - l.b.x, l.a.y - l.b.y) > 0.0
      && o.r + EDGE_CLEARANCE > 0.0
      && Distance2(Curve(l, 0.0, Along(l, o)), o) < Square(o.r + EDGE_CLEARANCE)
  {
    var p := Dot(o.x - l.a.x, o.y - l.a.y, l.b.x - l.a.x, l.b.y - l.a.y);
    var q := Dot(o.x - l.b.x, o.y - l.b.y, l.a.x - l.b.x, l.a.y - l.b.y);
    FromTheOtherEnd(o.x, o.y, l.a.x, l.a.y, l.b.x, l.b.y);
    assert p + q == Square(l.length);
    Positive(l.length);
    Share(p, q, Square(l.length), Along(l, o));
    PassesAt(l, o, 0.0);
    assert Gap(l, o, 0.0) == -Offset(l, o);
    hide Along, Offset, Curve, Distance2;
    WithinReach(Offset(l, o), o.r + EDGE_CLEARANCE);
  }

  lemma FromTheOtherEnd(x: real, y: real, ax: real, ay: real, cx: real, cy: real)
    ensures Dot(x - ax, y - ay, cx - ax, cy - ay) + Dot(x - cx, y - cy, ax - cx, ay - cy) ==
      Square(cx - ax) + Square(cy - ay)
  {
    assert (x - ax) * (cx - ax) + (x - cx) * (ax - cx) == Square(cx - ax);
    assert (y - ay) * (cy - ay) + (y - cy) * (ay - cy) == Square(cy - ay);
  }

  lemma Share(p: real, q: real, m: real, t: real)
    requires m > 0.0 && p + q == m && t == p / m
    ensures t > 0.0 <==> p > 0.0
    ensures t < 1.0 <==> q > 0.0
  {
    assert t * m == p;
    assert (1.0 - t) * m == m - t * m == q;
    Signs(t, m);
    Signs(1.0 - t, m);
  }

  lemma Signs(t: real, m: real)
    requires m > 0.0
    ensures t > 0.0 <==> t * m > 0.0
  {
  }

  lemma WithinReach(d: real, reach: real)
    ensures Abs(d) < reach <==> reach > 0.0 && Square(-d) < Square(reach)
  {
    if reach > 0.0 {
      FarEnough(-d, reach);
    }
  }

  lemma SwayPositive(t: real)
    requires 0.0 < t < 1.0
    ensures Sway(t) > 0.0
  {
    assert t * (1.0 - t) > 0.0;
  }

  /** The bends that pass the obstacle on the left of it and on the right of it. */
  function NeedLeft(l: Line, o: Disc): real
    requires l.length > 0.0 && Blocks(l, o)
  {
    SwayPositive(Along(l, o));
    (Reach(o) + Offset(l, o)) / Sway(Along(l, o))
  }

  function NeedRight(l: Line, o: Disc): real
    requires l.length > 0.0 && Blocks(l, o)
  {
    SwayPositive(Along(l, o));
    (Reach(o) - Offset(l, o)) / Sway(Along(l, o))
  }

  /** The curve passes the obstacle, at its projection, no closer than its radius and the clearance. */
  predicate Clears(l: Line, o: Disc, bend: real)
    requires l.length > 0.0
  {
    Distance2(Curve(l, bend, Along(l, o)), o) >= Square(o.r + EDGE_CLEARANCE)
  }

  lemma FarEnough(w: real, reach: real)
    requires reach > 0.0
    ensures Square(w) >= Square(reach) <==> w >= reach || w <= -reach
  {
    if w >= reach {
      assert w * w >= reach * w >= reach * reach;
    } else if w <= -reach {
      assert (-w) * (-w) >= reach * (-w) >= reach * reach;
    } else {
      assert (reach - w) * (reach + w) > 0.0;
    }
  }

  lemma Divided(b: real, x: real, g: real)
    requires g > 0.0
    ensures b >= x / g <==> g * b >= x
    ensures b <= x / g <==> g * b <= x
  {
    var q := x / g;
    assert q * g == x;
    assert (b - q) * g == g * b - x;
    if b >= q { assert (b - q) * g >= 0.0; } else { assert (b - q) * g < 0.0; }
    if b <= q { assert (b - q) * g <= 0.0; } else { assert (b - q) * g > 0.0; }
  }

  lemma EitherSide(g: real, bend: real, d: real, reach: real)
    requires g > 0.0 && Abs(d) < reach
    ensures g * bend - d >= reach <==> bend >= (reach + d) / g
    ensures g * bend - d <= -reach <==> bend <= -((reach - d) / g)
    ensures (reach + d) / g > 0.0 && (reach - d) / g > 0.0
  {
    Divided(bend, reach + d, g);
    Divided(-bend, reach - d, g);
    assert g * (-bend) == -(g * bend);
    Divided(0.0, reach + d, g);
    Divided(0.0, reach - d, g);
  }

  /** A bend clears an obstacle exactly when it reaches one of the two needs. */
  lemma ClearsIff(l: Line, o: Disc, bend: real)
    requires l.Proper() && Blocks(l, o)
    ensures Clears(l, o, bend) <==> bend >= NeedLeft(l, o) || bend <= -NeedRight(l, o)
    ensures NeedLeft(l, o) > 0.0 && NeedRight(l, o) > 0.0
  {
    hide Along, Offset, Curve, Distance2, Square, Sway;
    SwayPositive(Along(l, o));
    PassesAt(l, o, bend);
    FarEnough(Gap(l, o, bend), Reach(o));
    EitherSide(Sway(Along(l, o)), bend, Offset(l, o), Reach(o));
  }

  datatype Needs = Needs(left: real, right: real, blocked: bool)

  /** The two running maxima after one more disc. */
  function Widened(n: Needs, l: Line, o: Disc): Needs
    requires l.length > 0.0
  {
    if !Blocks(l, o) then n
    else Needs(Larger(n.left, NeedLeft(l, o)), Larger(n.right, NeedRight(l, o)), true)
  }

  function NeedsOf(l: Line, os: seq<Disc>): Needs
    requires l.length > 0.0
  {
    if os == [] then Needs(0.0, 0.0, false) else Widened(NeedsOf(l, os[..|os| - 1]), l, os[|os| - 1])
  }

  /** A bend clears every obstacle of the line. */
  predicate ClearsAll(l: Line, os: seq<Disc>, bend: real)
    requires l.length > 0.0
  {
    forall i :: 0 <= i < |os| && Blocks(l, os[i]) ==> Clears(l, os[i], bend)
  }

  /**
   The two maxima are exact: a bend clears every obstacle at once just when it reaches one of them,
   since no bend can pass one obstacle on its left and another on its right.
   */
  lemma {:induction false} NeedsAreExact(l: Line, os: seq<Disc>, bend: real)
    requires l.Proper()
    ensures var n := NeedsOf(l, os);
      && (if n.blocked then n.left > 0.0 && n.right > 0.0 else n.left == n.right == 0.0)
      && (n.blocked <==> exists i :: 0 <= i < |os| && Blocks(l, os[i]))
      && (n.blocked ==> (ClearsAll(l, os, bend) <==> bend >= n.left || bend <= -n.right))
  {
    if os != [] {
      var init, o := os[..|os| - 1], os[|os| - 1];
      NeedsAreExact(l, init, bend);
      if Blocks(l, o) {
        ClearsIff(l, o, bend);
      }
      hide Blocks, Clears, NeedLeft, NeedRight;
      assert forall i :: 0 <= i < |init| ==> init[i] == os[i];
      assert ClearsAll(l, os, bend) <==> ClearsAll(l, init, bend) && (Blocks(l, o) ==> Clears(l, o, bend));
      if !NeedsOf(l, init).blocked {
        assert ClearsAll(l, init, bend);
      }
    }
  }

  /** The bend given to a blocked edge: the smaller need, capped, with the parallel bend stacked on it. */
  function Choose(n: Needs, length: real, base: real): real {
    var cap := MAX_BEND_RATIO * length;
    if n.left <= n.right then Smaller(n.left, cap) + base else -(Smaller(n.right, cap) + base)
  }

  /**
   The chosen bend clears every obstacle the straight line met exactly when the cap leaves room for
   the smaller of the two needs; in particular whenever the cap does not cut it.
   */
  lemma ChosenClearsIff(l: Line, os: seq<Disc>, base: real)
    requires l.Proper() && base >= 0.0 && NeedsOf(l, os).blocked
    ensures ClearsAll(l, os, Choose(NeedsOf(l, os), l.length, base)) <==>
            Smaller(NeedsOf(l, os).left, NeedsOf(l, os).right) <= MAX_BEND_RATIO * l.length + base
  {
    NeedsAreExact(l, os, Choose(NeedsOf(l, os), l.length, base));
    hide ClearsAll, NeedsOf;
    assert MAX_BEND_RATIO * l.length > 0.0;
  }

  /**
   No curve that clears every obstacle bends less than the chosen one, its parallel bend apart: whatever
   clears them bends at least the smaller need, and the chosen bend exceeds that, or the cap when it is
   smaller, by exactly the parallel bend, on the side of the smaller need.
   */
  lemma ChosenIsGentlest(l: Line, os: seq<Disc>, base: real, bend: real)
    requires l.Proper() && NeedsOf(l, os).blocked && base >= 0.0 && ClearsAll(l, os, bend)
    ensures Abs(Choose(NeedsOf(l, os), l.length, base)) <= Abs(bend) + base
    ensures NeedsOf(l, os).left <= Abs(bend) || NeedsOf(l, os).right <= Abs(bend)
  {
    NeedsAreExact(l, os, bend);
    ChosenBends(NeedsOf(l, os), l.length, base);
    hide NeedsOf, ClearsAll, Choose;
  }

  lemma ChosenBends(n: Needs, length: real, base: real)
    requires n.left >= 0.0 && n.right >= 0.0 && length > 0.0 && base >= 0.0
    ensures n.left <= n.right ==> Choose(n, length, base) >= 0.0
    ensures n.left > n.right ==> Choose(n, length, base) <= 0.0
    ensures var size := Abs(Choose(n, length, base)) - base;
      size == n.left <= n.right || size == n.right < n.left ||
      (size == 0.9 * length && size <= n.left && size <= n.right)
  {
  }

  const NODE_LABEL_BAND := 18.0

  /** The box the layout keeps clear for a node: its circle and the label band beneath it. */
  function BoxOf(d: Disc): Separation.Box {
    Separation.Box(Separation.Point(d.x - d.r, d.y - d.r), Separation.Size(2.0 * d.r, 2.0 * d.r + NODE_LABEL_BAND))
  }

  /** Two of the smallest nodes the layout draws, and two of the largest in the gap between them. */
  const TIGHT := Line(Disc(0.0, 0.0, 42.0), Disc(272.0, 204.0, 42.0), 340.0)
  const ON_THE_LEFT := Disc(145.0, 10.0, 66.0)
  const ON_THE_RIGHT := Disc(130.0, 195.0, 66.0)

  lemma TightIsProper()
    ensures TIGHT.Proper() && TIGHT.Left() == Vector(0.6, -0.8)
    ensures 0.8 * TIGHT.length == TIGHT.Dx() && 0.6 * TIGHT.length == TIGHT.Dy()
  {
  }

  lemma TightProjections()
    ensures TIGHT.Proper()
    ensures Along(TIGHT, ON_THE_LEFT) == 122.0 / 340.0 && Offset(TIGHT, ON_THE_LEFT) == 79.0
    ensures Along(TIGHT, ON_THE_RIGHT) == 0.65 && Offset(TIGHT, ON_THE_RIGHT) == -78.0
  {
    hide Square, Along, Offset;
    TightIsProper();
    AlongIs(TIGHT, ON_THE_LEFT, 0.8, 0.6);
    OffsetIs(TIGHT, ON_THE_LEFT, 0.8, 0.6);
    AlongIs(TIGHT, ON_THE_RIGHT, 0.8, 0.6);
    OffsetIs(TIGHT, ON_THE_RIGHT, 0.8, 0.6);
  }

  lemma TightNeeds()
    ensures TIGHT.Proper() && Blocks(TIGHT, ON_THE_LEFT) && Blocks(TIGHT, ON_THE_RIGHT)
    ensures NeedLeft(TIGHT, ON_THE_LEFT) > 306.0 && NeedRight(TIGHT, ON_THE_RIGHT) > 306.0
  {
    hide Along, Offset;
    TightProjections();
    assert 0.0 < Sway(122.0 / 340.0) < 0.47 && 0.0 < Sway(0.65) < 0.46;
    hide Sway;
    Divided(306.0, 159.0, Sway(122.0 / 340.0));
    Divided(306.0, 158.0, Sway(0.65));
  }

  /**
   The cap can cut a detour short even in a layout that is separated as `Separation` separates it, with
   nodes of the sizes that are drawn: passing either disc on its far side takes a bend of over 306, and
   an edge of length 340 is allowed no more.
   */
  lemma CapCanCut()
    ensures Separation.Apart([BoxOf(TIGHT.a), BoxOf(TIGHT.b), BoxOf(ON_THE_LEFT), BoxOf(ON_THE_RIGHT)])
    ensures TIGHT.Proper() && NeedsOf(TIGHT, [ON_THE_LEFT, ON_THE_RIGHT]).blocked
    ensures !ClearsAll(TIGHT, [ON_THE_LEFT, ON_THE_RIGHT],
      Choose(NeedsOf(TIGHT, [ON_THE_LEFT, ON_THE_RIGHT]), TIGHT.length, 0.0))
  {
    var os := [ON_THE_LEFT, ON_THE_RIGHT];
    TightNeeds();
    hide Along, Offset, Sway, Blocks, NeedLeft, NeedRight, ClearsAll, Square;
    assert os[..1] == [ON_THE_LEFT] && [ON_THE_LEFT][..0] == [];
    assert NeedsOf(TIGHT, [ON_THE_LEFT]) == Widened(NeedsOf(TIGHT, []), TIGHT, ON_THE_LEFT);
    assert NeedsOf(TIGHT, os) == Widened(NeedsOf(TIGHT, [ON_THE_LEFT]), TIGHT, ON_THE_RIGHT);
    assert NeedsOf(TIGHT, os).blocked && NeedsOf(TIGHT, os).left > 306.0 && NeedsOf(TIGHT, os).right > 306.0;
    hide NeedsOf;
    ChosenClearsIff(TIGHT, os, 0.0);
  }

  // ---------- travelling the other way ----------

  lemma DirectionReversed(l: Line, e: real, f: real)
    requires l.Proper() && e * l.length == l.Dx() && f * l.length == l.Dy() && l.Left() == Vector(f, -e)
    ensures l.Reversed().Proper() && l.Reversed().Left() == Vector(-f, e)
    ensures (-e) * l.length == l.Reversed().Dx() && (-f) * l.length == l.Reversed().Dy()
  {
    assert Square(-l.Dx()) == Square(l.Dx()) && Square(-l.Dy()) == Square(l.Dy());
    assert l.Reversed().Dx() == -l.Dx() && l.Reversed().Dy() == -l.Dy();
  }

  lemma ReversedLine(l: Line, o: Disc)
    requires l.Proper()
    ensures l.Reversed().Proper()
    ensures Along(l.Reversed(), o) == 1.0 - Along(l, o) && Offset(l.Reversed(), o) == -Offset(l, o)
  {
    hide Along, Offset, Square;
    var e, f := Direction(l);
    var r := l.Reversed();
    DirectionReversed(l, e, f);
    AlongIs(l, o, e, f);
    AlongIs(r, o, -e, -f);
    OffsetIs(l, o, e, f);
    OffsetIs(r, o, -e, -f);
    assert l.b.x == l.a.x + e * l.length && l.b.y == l.a.y + f * l.length;
    TurnedRound(o.x - l.a.x, o.y - l.a.y, o.x - l.b.x, o.y - l.b.y, e, f, l.length, Along(l, o), Along(r, o));
  }

  lemma TurnedRound(u: real, v: real, u': real, v': real, e: real, f: real, n: real, t: real, t': real)
    requires n > 0.0 && Square(e) + Square(f) == 1.0 && u' == u - e * n && v' == v - f * n
    requires t * n == u * e + v * f && t' * n == u' * (-e) + v' * (-f)
    ensures t' == 1.0 - t && u' * (-f) - v' * (-e) == -(u * f - v * e)
  {
    assert u' * (-e) == e * e * n - u * e && v' * (-f) == f * f * n - v * f;
    assert e * e * n + f * f * n == (Square(e) + Square(f)) * n;
    ZeroFactor(t' + t - 1.0, n);
    assert u' * (-f) == e * n * f - u * f && v' * (-e) == e * n * f - v * e;
  }

  /** The two directions see the same obstacles, with left and right exchanged. */
  lemma {:induction false} NeedsReversed(l: Line, os: seq<Disc>)
    requires l.Proper()
    ensures l.Reversed().Proper()
    ensures NeedsOf(l.Reversed(), os) == Needs(NeedsOf(l, os).right, NeedsOf(l, os).left, NeedsOf(l, os).blocked)
  {
    ReversedLine(l, l.a);
    if os != [] {
      var o := os[|os| - 1];
      NeedsReversed(l, os[..|os| - 1]);
      ReversedLine(l, o);
      assert Sway(1.0 - Along(l, o)) == Sway(Along(l, o));
      hide Along, Offset, Sway;
    }
  }

  /** Bends of one line, measured to its left: the other direction's count the other way. */
  lemma CurveReversed(l: Line, bend: real, t: real)
    requires l.Proper()
    ensures l.Reversed().Proper() && Curve(l.Reversed(), bend, 1.0 - t) == Curve(l, -bend, t)
  {
    hide Bow, Square;
    var e, f := Direction(l);
    DirectionReversed(l, e, f);
    BowReversed(l.a.x, l.b.x, f, bend, t);
    BowReversed(l.a.y, l.b.y, -e, bend, t);
    assert -(-e) == e;
  }

  lemma BowReversed(a: real, b: real, side: real, bend: real, t: real)
    ensures Bow(b, a, -side, bend, 1.0 - t) == Bow(a, b, side, -bend, t)
  {
    var c := Middle(a, b) + side * (-bend);
    assert Middle(b, a) + (-side) * bend == c;
    assert 2.0 * (1.0 - t) * t * c == 2.0 * t * (1.0 - t) * c;
  }

  lemma NoRotation(a: real, b: real, e: real, f: real)
    requires Square(e) + Square(f) == 1.0 && a * e + b * f == 0.0 && a * f - b * e == 0.0
    ensures a == 0.0 && b == 0.0
  {
    assert e * (a * e + b * f) + f * (a * f - b * e) == a * (Square(e) + Square(f));
    assert f * (a * e + b * f) - e * (a * f - b * e) == b * (Square(e) + Square(f));
  }

  lemma Meeting(dx: real, dy: real, n: real, left: Vector, t: real, s: real, p: real, q: real)
    requires n > 0.0 && Square(left.x) + Square(left.y) == 1.0 && dx == -left.y * n && dy == left.x * n
    requires t * dx + p * left.x == s * dx + q * left.x && t * dy + p * left.y == s * dy + q * left.y
    ensures t == s && p == q
  {
    var a, b, e, f := (t - s) * n, p - q, -left.y, left.x;
    assert a * e == t * dx - s * dx && b * f == p * left.x - q * left.x;
    assert a * f == t * dy - s * dy && b * e == -(p * left.y - q * left.y);
    assert Square(e) == Square(left.y);
    NoRotation(a, b, e, f);
    ZeroFactor(t - s, n);
  }

  /** Two curves over one line that meet strictly between its ends are the same curve. */
  lemma CurvesMeet(l: Line, p: real, q: real, t: real, s: real)
    requires l.Proper() && 0.0 < t < 1.0 && 0.0 < s < 1.0 && Curve(l, p, t) == Curve(l, q, s)
    ensures t == s && p == q
  {
    hide Bow, Sway, Square;
    var e, f := Direction(l);
    Sways(l.a.x, l.b.x, l.Left().x, p, t); Sways(l.a.y, l.b.y, l.Left().y, p, t);
    Sways(l.a.x, l.b.x, l.Left().x, q, s); Sways(l.a.y, l.b.y, l.Left().y, q, s);
    Meeting(l.Dx(), l.Dy(), l.length, l.Left(), t, s, Sway(t) * p, Sway(s) * q);
    SwayPositive(t);
    SameFactor(Sway(t), p, q);
  }

  lemma SameFactor(g: real, p: real, q: real)
    requires g > 0.0 && g * p == g * q
    ensures p == q
  {
    ZeroFactor(p - q, g);
  }

  // ---------- every edge ----------

  datatype Link = Link(id: string, source: string, target: string)

  /** Both ends, in sorted order: the two directions share it. */
  datatype Pair = Pair(low: string, high: string)

  function PairOf(e: Link): Pair {
    if StrLess(e.target, e.source) then Pair(e.target, e.source) else Pair(e.source, e.target)
  }

  lemma SamePairMeans(a: Link, b: Link)
    ensures PairOf(a) == PairOf(b) <==>
      (a.source == b.source && a.target == b.target) || (a.source == b.target && a.target == b.source)
  {
    StrLessTrichotomy(a.source, a.target);
    StrLessTrichotomy(b.source, b.target);
  }

  /** The ids grouped under a pair, in the order listed. */
  function Group(edges: seq<Link>, p: Pair): seq<string> {
    if edges == [] then []
    else if PairOf(edges[|edges| - 1]) == p then Group(edges[..|edges| - 1], p) + [edges[|edges| - 1].id]
    else Group(edges[..|edges| - 1], p)
  }

  lemma {:induction false} GroupHolds(edges: seq<Link>, p: Pair, id: string)
    ensures id in Group(edges, p) <==> exists i :: 0 <= i < |edges| && edges[i].id == id && PairOf(edges[i]) == p
  {
    if edges != [] {
      var k := |edges| - 1;
      GroupHolds(edges[..k], p, id);
      assert forall i :: 0 <= i < k ==> edges[..k][i] == edges[i];
      hide PairOf;
    }
  }

  /** How many of the ids sort no later than `id`. */
  function NotAbove(ids: seq<string>, id: string): nat {
    if ids == [] then 0 else NotAbove(ids[..|ids| - 1], id) + if StrLess(id, ids[|ids| - 1]) then 0 else 1
  }

  /** No bend for a lone edge; among siblings, one step for each id that sorts no later. */
  function Base(edges: seq<Link>, e: Link): int {
    var ids := Group(edges, PairOf(e));
    if |ids| == 1 then 0 else BEND_STEP * NotAbove(ids, e.id)
  }

  lemma {:induction false} CountGrows(ids: seq<string>, x: string, y: string)
    requires StrLess(x, y)
    ensures NotAbove(ids, x) <= NotAbove(ids, y)
    ensures y in ids ==> NotAbove(ids, x) < NotAbove(ids, y)
  {
    if ids != [] {
      var init, last := ids[..|ids| - 1], ids[|ids| - 1];
      CountGrows(init, x, y);
      assert ids == init + [last];
      if StrLess(y, last) { StrLessTransitive(x, y, last); }
      StrLessTrichotomy(y, y);
    }
  }

  lemma {:induction false} CountsItself(ids: seq<string>, id: string)
    requires id in ids
    ensures 1 <= NotAbove(ids, id)
  {
    var init, last := ids[..|ids| - 1], ids[|ids| - 1];
    assert ids == init + [last];
    StrLessTrichotomy(id, id);
    if last != id { CountsItself(init, id); }
  }

  /** Siblings with different ids are given different bends, all of them positive. */
  lemma BasesDiffer(edges: seq<Link>, a: Link, b: Link)
    requires a in edges && b in edges && a.id != b.id && PairOf(a) == PairOf(b)
    ensures Base(edges, a) > 0 && Base(edges, b) > 0 && Base(edges, a) != Base(edges, b)
  {
    var ids := Group(edges, PairOf(a));
    GroupHolds(edges, PairOf(a), a.id);
    GroupHolds(edges, PairOf(a), b.id);
    assert a.id in ids && b.id in ids;
    CountsItself(ids, a.id);
    CountsItself(ids, b.id);
    StrLessTrichotomy(a.id, b.id);
    if StrLess(a.id, b.id) { CountGrows(ids, a.id, b.id); } else { CountGrows(ids, b.id, a.id); }
  }

  predicate IsLeast(ids: seq<string>, x: string) { forall z :: z in ids ==> !StrLess(z, x) }

  /** `y` sorts after `x` with none of `ids` between them. */
  predicate Follows(ids: seq<string>, x: string, y: string) {
    StrLess(x, y) && forall z :: z in ids ==> !(StrLess(x, z) && StrLess(z, y))
  }

  lemma {:induction false} CountNext(ids: seq<string>, x: string, y: string)
    requires Follows(ids, x, y)
    ensures NotAbove(ids, y) == NotAbove(ids, x) + multiset(ids)[y]
  {
    if ids != [] {
      var init, z := ids[..|ids| - 1], ids[|ids| - 1];
      assert ids == init + [z];
      assert multiset(ids) == multiset(init) + multiset{z};
      CountNext(init, x, y);
      StrLessTrichotomy(y, z);
      StrLessTrichotomy(y, y);
      if StrLess(y, z) { StrLessTransitive(x, y, z); }
      assert z in ids;
      hide StrLess;
    }
  }

  lemma {:induction false} CountFirst(ids: seq<string>, y: string)
    requires IsLeast(ids, y)
    ensures NotAbove(ids, y) == multiset(ids)[y]
  {
    if ids != [] {
      var init, z := ids[..|ids| - 1], ids[|ids| - 1];
      assert ids == init + [z];
      assert multiset(ids) == multiset(init) + multiset{z};
      CountFirst(init, y);
      StrLessTrichotomy(y, z);
      assert z in ids;
      hide StrLess;
    }
  }

  /** Siblings, each id once, step outwards 22 pixels at a time in the order of their ids; a lone edge is straight. */
  lemma BasesStep(edges: seq<Link>, a: Link, b: Link)
    requires a in edges && b in edges && PairOf(a) == PairOf(b)
    requires forall id :: multiset(Group(edges, PairOf(a)))[id] <= 1
    ensures |Group(edges, PairOf(a))| == 1 ==> Base(edges, a) == 0
    ensures |Group(edges, PairOf(a))| > 1 && IsLeast(Group(edges, PairOf(a)), a.id) ==> Base(edges, a) == 22
    ensures |Group(edges, PairOf(a))| > 1 && Follows(Group(edges, PairOf(a)), a.id, b.id) ==>
      Base(edges, b) == Base(edges, a) + 22
  {
    var ids := Group(edges, PairOf(a));
    GroupHolds(edges, PairOf(a), a.id);
    GroupHolds(edges, PairOf(a), b.id);
    assert multiset(ids)[a.id] == 1 && multiset(ids)[b.id] == 1;
    hide Group;
    if IsLeast(ids, a.id) { CountFirst(ids, a.id); }
    if Follows(ids, a.id, b.id) { CountNext(ids, a.id, b.id); }
  }

  // ---------- counting in sorted order ----------

  lemma {:induction false} CountConcat(a: seq<string>, b: seq<string>, id: string)
    ensures NotAbove(a + b, id) == NotAbove(a, id) + NotAbove(b, id)
  {
    if b == [] {
      assert a + b == a;
    } else {
      CountConcat(a, b[..|b| - 1], id);
      assert (a + b)[..|a + b| - 1] == a + b[..|b| - 1];
    }
  }

  lemma {:induction false} CountAll(ids: seq<string>, id: string)
    ensures (forall i :: 0 <= i < |ids| ==> !StrLess(id, ids[i])) ==> NotAbove(ids, id) == |ids|
    ensures (forall i :: 0 <= i < |ids| ==> StrLess(id, ids[i])) ==> NotAbove(ids, id) == 0
  {
    if ids != [] { CountAll(ids[..|ids| - 1], id); }
  }

  lemma IdOrder(a: string, b: string)
    ensures KeyLess(TextKey(a), TextKey(b)) <==> StrLess(a, b)
  {
    StrLessTrichotomy(a, b);
  }

  /** The last index of an id in sorted order counts the ids that sort no later. */
  lemma LastIndexCounts(ids: seq<string>, i: nat)
    requires WeaklySorted(ids, TextKey) && i < |ids| && forall j :: i < j < |ids| ==> ids[j] != ids[i]
    ensures NotAbove(ids, ids[i]) == i + 1
  {
    hide KeyLess, StrLess, TextKey, NotAbove;
    var low, high := ids[..i + 1], ids[i + 1..];
    forall j | 0 <= j < |low| ensures !StrLess(ids[i], low[j]) {
      StrLessTrichotomy(ids[i], ids[i]);
      IdOrder(ids[i], ids[j]);
      assert j < i ==> !KeyLess(TextKey(ids[i]), TextKey(ids[j]));
    }
    forall j | 0 <= j < |high| ensures StrLess(ids[i], high[j]) {
      assert high[j] == ids[i + 1 + j];
      assert !KeyLess(TextKey(ids[i + 1 + j]), TextKey(ids[i]));
      IdOrder(high[j], ids[i]);
      StrLessTrichotomy(ids[i], high[j]);
    }
    CountAll(low, ids[i]);
    CountAll(high, ids[i]);
    CountConcat(low, high, ids[i]);
    assert ids == low + high;
  }

  lemma CancelOne(p: multiset<string>, q: multiset<string>, x: string)
    requires p + multiset{x} == q + multiset{x}
    ensures p == q
  {
    assert p == (p + multiset{x}) - multiset{x} && q == (q + multiset{x}) - multiset{x};
  }

  /** Taking one occurrence out of either of two permutations leaves permutations. */
  lemma WithoutOne(a: seq<string>, b: seq<string>, j: nat)
    requires a != [] && multiset(a) == multiset(b) && j < |b| && b[j] == a[|a| - 1]
    ensures multiset(a[..|a| - 1]) == multiset(b[..j] + b[j + 1..])
  {
    var x := b[j];
    assert a == a[..|a| - 1] + [x] && b == b[..j] + [x] + b[j + 1..];
    assert multiset(a) == multiset(a[..|a| - 1]) + multiset{x};
    assert multiset(b) == multiset(b[..j]) + multiset{x} + multiset(b[j + 1..]);
    CancelOne(multiset(a[..|a| - 1]), multiset(b[..j] + b[j + 1..]), x);
  }

  lemma CountWithout(b: seq<string>, j: nat, id: string)
    requires j < |b|
    ensures NotAbove(b, id) == NotAbove(b[..j] + b[j + 1..], id) + if StrLess(id, b[j]) then 0 else 1
  {
    var x := b[j];
    assert b == (b[..j] + [x]) + b[j + 1..];
    CountConcat(b[..j] + [x], b[j + 1..], id);
    CountConcat(b[..j], [x], id);
    CountConcat(b[..j], b[j + 1..], id);
    assert NotAbove([x], id) == if StrLess(id, x) then 0 else 1;
  }

  /** Counting does not depend on order. */
  lemma {:induction false} CountPermuted(a: seq<string>, b: seq<string>, id: string)
    requires multiset(a) == multiset(b)
    ensures NotAbove(a, id) == NotAbove(b, id)
    decreases |a|
  {
    SameElements(a, b);
    if a != [] {
      var x := a[|a| - 1];
      assert x in b;
      var j :| 0 <= j < |b| && b[j] == x;
      hide NotAbove, StrLess;
      WithoutOne(a, b, j);
      CountPermuted(a[..|a| - 1], b[..j] + b[j + 1..], id);
      CountWithout(a, |a| - 1, id);
      CountWithout(b, j, id);
      assert a[..|a| - 1] + a[|a| - 1 + 1..] == a[..|a| - 1];
    }
  }

  /** Where a pair is first listed: the map of pairs yields them in this order. */
  function FirstListed(edges: seq<Link>, p: Pair): (n: nat)
    ensures n <= |edges|
    ensures n < |edges| ==> PairOf(edges[n]) == p
    ensures forall k :: 0 <= k < n ==> PairOf(edges[k]) != p
  {
    if edges == [] || PairOf(edges[0]) == p then 0 else 1 + FirstListed(edges[1..], p)
  }

  /** Among the pairs using its id, this edge's is listed last, so its bend is the one left standing. */
  predicate Decides(edges: seq<Link>, e: Link) {
    forall x :: x in edges && x.id == e.id ==> FirstListed(edges, PairOf(x)) <= FirstListed(edges, PairOf(e))
  }

  lemma {:induction false} SomeEdgeDecides(edges: seq<Link>, id: string, upto: nat) returns (e: Link)
    requires upto <= |edges| && exists x :: x in edges[..upto] && x.id == id
    ensures e in edges[..upto] && e.id == id
    ensures forall x :: x in edges[..upto] && x.id == id ==>
      FirstListed(edges, PairOf(x)) <= FirstListed(edges, PairOf(e))
  {
    var last := edges[upto - 1];
    assert edges[..upto] == edges[..upto - 1] + [last];
    if exists x :: x in edges[..upto - 1] && x.id == id {
      e := SomeEdgeDecides(edges, id, upto - 1);
      if last.id == id && FirstListed(edges, PairOf(e)) < FirstListed(edges, PairOf(last)) {
        e := last;
      }
    } else {
      e := last;
    }
  }

  method EdgeBends(edges: seq<Link>) returns (bends: map<string, int>)
    ensures forall e :: e in edges ==> e.id in bends
    ensures forall e :: e in edges && Decides(edges, e) ==> bends[e.id] == Base(edges, e)
    ensures forall id :: id in bends ==> exists e :: e in edges && e.id == id && Decides(edges, e)
  {
    var byPair, order := GroupByPair(edges);
    bends := map[];
    for i := 0 to |order|
      invariant Bent(edges, bends, order[..i])
    {
      assert order[..i + 1] == order[..i] + [order[i]];
      assert ListedAfter(edges, order[i], order[..i]);
      bends := BendGroup(edges, bends, order[i], byPair[order[i]], order[..i]);
    }
    assert order[..|order|] == order;
    AllBent(edges, bends, order);
  }

  /** The first loop: the ids of each pair, and the pairs in the order a JavaScript map yields them. */
  method GroupByPair(edges: seq<Link>) returns (byPair: map<Pair, seq<string>>, order: seq<Pair>)
    ensures ListedInOrder(edges, order, |edges|)
    ensures forall p :: p in order ==> p in byPair && byPair[p] == Group(edges, p)
  {
    byPair, order := map[], [];
    assert Grouped(edges[..0], byPair) && ListedInOrder(edges, order, 0);
    hide Grouped, ListedInOrder, FirstListed, Group;
    for n := 0 to |edges|
      invariant Grouped(edges[..n], byPair)
      invariant ListedInOrder(edges, order, n)
      invariant forall p :: p in order <==> p in byPair
    {
      var key := PairOf(edges[n]);
      assert edges[..n + 1] == edges[..n] + [edges[n]];
      GroupOne(edges[..n], edges[n], byPair);
      ListOne(edges, order, n);
      order := if key in byPair then order else order + [key];
      byPair := byPair[key := (if key in byPair then byPair[key] else []) + [edges[n].id]];
    }
    assert edges[..|edges|] == edges;
    GroupedIs(edges, byPair);
  }

  ghost predicate Grouped(edges: seq<Link>, byPair: map<Pair, seq<string>>) {
    forall p :: (p in byPair <==> Group(edges, p) != []) && (p in byPair ==> byPair[p] == Group(edges, p))
  }

  lemma GroupedIs(edges: seq<Link>, byPair: map<Pair, seq<string>>)
    requires Grouped(edges, byPair)
    ensures forall p :: p in byPair ==> byPair[p] == Group(edges, p)
  {
  }

  lemma GroupOne(edges: seq<Link>, e: Link, byPair: map<Pair, seq<string>>)
    requires Grouped(edges, byPair)
    ensures var key := PairOf(e);
      Grouped(edges + [e], byPair[key := (if key in byPair then byPair[key] else []) + [e.id]])
  {
    assert (edges + [e])[..|edges|] == edges;
  }

  /** Once every pair is bent, the edges that decide have their bends, and each id has one that decides. */
  lemma AllBent(edges: seq<Link>, bends: map<string, int>, order: seq<Pair>)
    requires Bent(edges, bends, order) && ListedInOrder(edges, order, |edges|)
    ensures forall e :: e in edges ==> e.id in bends && (Decides(edges, e) ==> bends[e.id] == Base(edges, e))
    ensures forall id :: id in bends ==> exists e :: e in edges && e.id == id && Decides(edges, e)
  {
    forall e | e in edges ensures PairOf(e) in order && (Decides(edges, e) ==> Stands(edges, e, order)) {
      var n :| 0 <= n < |edges| && edges[n] == e;
      assert FirstListed(edges, PairOf(e)) <= n;
    }
    assert edges[..|edges|] == edges;
    forall id | id in bends ensures exists e :: e in edges && e.id == id && Decides(edges, e) {
      var e := SomeEdgeDecides(edges, id, |edges|);
      assert Decides(edges, e);
    }
  }

  /** The pairs of the first `n` edges, each once, in the order of their first listing. */
  ghost predicate ListedInOrder(edges: seq<Link>, order: seq<Pair>, n: nat) {
    && (forall p :: p in order <==> FirstListed(edges, p) < n)
    && (forall i, j :: 0 <= i < j < |order| ==> FirstListed(edges, order[i]) < FirstListed(edges, order[j]))
  }

  lemma ListOne(edges: seq<Link>, order: seq<Pair>, n: nat)
    requires n < |edges| && ListedInOrder(edges, order, n)
    ensures var key := PairOf(edges[n]);
      ListedInOrder(edges, if key in order then order else order + [key], n + 1)
  {
    var key := PairOf(edges[n]);
    assert FirstListed(edges, key) <= n;
    forall p ensures FirstListed(edges, p) < n + 1 <==> p == key || FirstListed(edges, p) < n {}
  }

  /** The pairs in `done` have been bent, in that order: of those sharing an id, the one listed last stands. */
  ghost predicate Bent(edges: seq<Link>, bends: map<string, int>, done: seq<Pair>) {
    && (forall e :: e in edges && PairOf(e) in done ==> e.id in bends)
    && (forall e :: e in edges && PairOf(e) in done && Stands(edges, e, done) ==> bends[e.id] == Base(edges, e))
    && (forall id :: id in bends ==> exists e :: e in edges && e.id == id)
  }

  predicate Stands(edges: seq<Link>, e: Link, done: seq<Pair>) {
    forall x :: x in edges && x.id == e.id && PairOf(x) in done ==>
      FirstListed(edges, PairOf(x)) <= FirstListed(edges, PairOf(e))
  }

  /** What the inner loop writes for an id of the group: the step of its last place in sorted order. */
  function Step(ids: seq<string>, i: nat): int { if |ids| == 1 then 0 else BEND_STEP * (i + 1) }

  ghost predicate Written(bends: map<string, int>, before: map<string, int>, ids: seq<string>, n: nat)
    requires n <= |ids|
  {
    && (forall id :: id in bends <==> id in before || id in ids[..n])
    && (forall id :: id in before && id !in ids[..n] ==> bends[id] == before[id])
    && (forall i :: 0 <= i < n && (forall j :: i < j < n ==> ids[j] != ids[i]) ==>
      ids[i] in bends && bends[ids[i]] == Step(ids, i))
  }

  lemma WriteOne(bends: map<string, int>, before: map<string, int>, ids: seq<string>, n: nat)
    requires n < |ids| && Written(bends, before, ids, n)
    ensures Written(bends[ids[n] := Step(ids, n)], before, ids, n + 1)
  {
    assert ids[..n + 1] == ids[..n] + [ids[n]];
    var bends' := bends[ids[n] := Step(ids, n)];
    forall i | 0 <= i < n + 1 && (forall j :: i < j < n + 1 ==> ids[j] != ids[i])
      ensures ids[i] in bends' && bends'[ids[i]] == Step(ids, i)
    {
      if i < n {
        assert ids[n] != ids[i];
      }
    }
  }

  method BendGroup(edges: seq<Link>, bends: map<string, int>, p: Pair, group: seq<string>, ghost done: seq<Pair>)
    returns (bends': map<string, int>)
    requires Bent(edges, bends, done) && group == Group(edges, p) && ListedAfter(edges, p, done)
    ensures Bent(edges, bends', done + [p])
  {
    hide Bent, Group, ListedAfter;
    var ids := SortByKey(group, TextKey);
    bends' := bends;
    for i := 0 to |ids|
      invariant Written(bends', bends, ids, i)
    {
      WriteOne(bends', bends, ids, i);
      bends' := bends'[ids[i] := if |ids| == 1 then 0 else BEND_STEP * (i + 1)];
    }
    GroupBent(edges, bends, bends', p, ids, done);
  }

  ghost predicate ListedAfter(edges: seq<Link>, p: Pair, done: seq<Pair>) {
    forall q :: q in done ==> FirstListed(edges, q) < FirstListed(edges, p)
  }

  lemma {:induction false} LastPlace(ids: seq<string>, id: string) returns (i: nat)
    requires id in ids
    ensures i < |ids| && ids[i] == id && forall j :: i < j < |ids| ==> ids[j] != id
  {
    i := |ids| - 1;
    if ids[i] != id {
      assert ids == ids[..i] + [ids[i]];
      i := LastPlace(ids[..i], id);
    }
  }

  lemma WrittenIsBase(edges: seq<Link>, bends: map<string, int>, bends': map<string, int>, ids: seq<string>, e: Link)
    requires e in edges && WeaklySorted(ids, TextKey) && multiset(ids) == multiset(Group(edges, PairOf(e)))
    requires Written(bends', bends, ids, |ids|)
    ensures e.id in bends' && bends'[e.id] == Base(edges, e)
  {
    var group := Group(edges, PairOf(e));
    GroupHolds(edges, PairOf(e), e.id);
    SameElements(ids, group);
    var i := LastPlace(ids, e.id);
    LastIndexCounts(ids, i);
    CountPermuted(ids, group, e.id);
  }

  lemma GroupBent(edges: seq<Link>, bends: map<string, int>, bends': map<string, int>, p: Pair, ids: seq<string>,
      done: seq<Pair>)
    requires Bent(edges, bends, done) && ListedAfter(edges, p, done)
    requires WeaklySorted(ids, TextKey) && multiset(ids) == multiset(Group(edges, p))
    requires Written(bends', bends, ids, |ids|)
    ensures Bent(edges, bends', done + [p])
  {
    assert ids[..|ids|] == ids;
    SameElements(ids, Group(edges, p));
    forall e | e in edges && PairOf(e) in done + [p]
      ensures e.id in bends' && (Stands(edges, e, done + [p]) ==> bends'[e.id] == Base(edges, e))
    {
      if PairOf(e) == p {
        WrittenIsBase(edges, bends, bends', ids, e);
      } else {
        GroupHolds(edges, p, e.id);
        assert Stands(edges, e, done + [p]) ==> Stands(edges, e, done) && e.id !in ids;
      }
    }
    forall id | id in bends' ensures exists e :: e in edges && e.id == id {
      GroupHolds(edges, p, id);
    }
  }

  /** The exact hypotenuse. */
  ghost predicate IsHypot(hypot: (real, real) -> real) {
    forall x, y :: hypot(x, y) >= 0.0 && Square(hypot(x, y)) == Square(x) + Square(y)
  }

  function LineOf(a: Disc, b: Disc, hypot: (real, real) -> real): Line { Line(a, b, hypot(b.x - a.x, b.y - a.y)) }

  /** The discs an edge may run into, in the order the map yields them: all but its own ends. */
  function Obstacles(e: Link, discs: map<string, Disc>, order: seq<string>): seq<Disc>
    requires forall id :: id in order ==> id in discs
  {
    if order == [] then []
    else
      var init, id := order[..|order| - 1], order[|order| - 1];
      if id == e.source || id == e.target then Obstacles(e, discs, init) else Obstacles(e, discs, init) + [discs[id]]
  }

  /** Every listed disc but the edge's own ends. */
  lemma {:induction false} ObstaclesAre(e: Link, discs: map<string, Disc>, order: seq<string>, o: Disc)
    requires forall id :: id in order ==> id in discs
    ensures o in Obstacles(e, discs, order) <==>
      exists id :: id in order && id != e.source && id != e.target && discs[id] == o
  {
    if order != [] {
      var init, id := order[..|order| - 1], order[|order| - 1];
      ObstaclesAre(e, discs, init, o);
      assert order == init + [id];
      assert forall x :: x in order <==> x in init || x == id;
    }
  }

  function Bend(l: Line, os: seq<Disc>, base: real): real
    requires l.length > 0.0
  {
    var n := NeedsOf(l, os);
    if n.blocked then Choose(n, l.length, base) else base
  }

  predicate Drawable(e: Link, discs: map<string, Disc>, hypot: (real, real) -> real) {
    e.source in discs && e.target in discs && e.source != e.target &&
      LineOf(discs[e.source], discs[e.target], hypot).length > 0.0
  }

  function BendOf(e: Link, discs: map<string, Disc>, order: seq<string>, base: real, hypot: (real, real) -> real): real
    requires forall id :: id in order ==> id in discs
  {
    if Drawable(e, discs, hypot)
      then Bend(LineOf(discs[e.source], discs[e.target], hypot), Obstacles(e, discs, order), base) else base
  }

  lemma {:induction false} BlockedIff(l: Line, os: seq<Disc>)
    requires l.length > 0.0
    ensures NeedsOf(l, os).blocked <==> exists i :: 0 <= i < |os| && Blocks(l, os[i])
  {
    if os != [] {
      var init, o := os[..|os| - 1], os[|os| - 1];
      BlockedIff(l, init);
      assert forall i :: 0 <= i < |init| ==> init[i] == os[i];
    }
  }

  /**
   What an edge's bend does: with no disc of another node in the way it is the parallel bend; otherwise it
   clears every one of them if the smaller need fits under the cap, and then, the parallel bend apart, no
   curve that clears them bends less.
   */
  lemma RoutedBend(e: Link, discs: map<string, Disc>, order: seq<string>, base: real, hypot: (real, real) -> real,
      other: real)
    requires (forall id :: id in order ==> id in discs) && IsHypot(hypot) && base >= 0.0
    requires Drawable(e, discs, hypot)
    ensures var l, os := LineOf(discs[e.source], discs[e.target], hypot), Obstacles(e, discs, order);
      var bend, n := BendOf(e, discs, order, base, hypot), NeedsOf(l, os);
      && ((forall o :: o in os ==> !Blocks(l, o)) ==> bend == base)
      && ((n.left <= 0.9 * l.length || n.right <= 0.9 * l.length) ==> ClearsAll(l, os, bend))
      && ((exists o :: o in os && Blocks(l, o)) && ClearsAll(l, os, other) ==> Abs(bend) <= Abs(other) + base)
  {
    var l, os := LineOf(discs[e.source], discs[e.target], hypot), Obstacles(e, discs, order);
    assert l.Proper();
    BlockedIff(l, os);
    hide Obstacles, NeedsOf, Blocks;
    if NeedsOf(l, os).blocked {
      ChosenClearsIff(l, os, base);
      if ClearsAll(l, os, other) { ChosenIsGentlest(l, os, base, other); }
    } else {
      assert forall o :: o in os ==> !Blocks(l, o);
    }
  }

  /** One disc of the inner loop. */
  method Consider(l: Line, o: Disc, n: Needs) returns (n': Needs)
    requires l.length > 0.0
    ensures n' == Widened(n, l, o)
  {
    hide Along, Offset, Sway;
    var t := Along(l, o);
    if t <= 0.0 || t >= 1.0 {
      return n;
    }
    var d, reach := Offset(l, o), Reach(o);
    if Abs(d) >= reach {
      return n;
    }
    SwayPositive(t);
    var f := Sway(t);
    var away, round := (reach - Abs(d)) / f, (Abs(d) + reach) / f;
    if d >= 0.0 {
      assert away == NeedRight(l, o) && round == NeedLeft(l, o);
      return Needs(Larger(n.left, round), Larger(n.right, away), true);
    }
    assert away == NeedLeft(l, o) && round == NeedRight(l, o);
    return Needs(Larger(n.left, away), Larger(n.right, round), true);
  }

  method RouteEdge(e: Link, discs: map<string, Disc>, order: seq<string>, base: real,
      hypot: (real, real) -> real) returns (bend: real)
    requires forall id :: id in order ==> id in discs
    requires IsHypot(hypot)
    ensures bend == BendOf(e, discs, order, base, hypot)
  {
    hide NeedsOf, Widened;
    if e.source !in discs || e.target !in discs || e.source == e.target {
      return base;
    }
    var l := LineOf(discs[e.source], discs[e.target], hypot);
    assert hypot(l.b.x - l.a.x, l.b.y - l.a.y) >= 0.0;
    if l.length == 0.0 {
      return base;
    }
    var n := Needs(0.0, 0.0, false);
    NoObstacles(l);
    for i := 0 to |order|
      invariant n == NeedsOf(l, Obstacles(e, discs, order[..i]))
    {
      assert order[..i + 1][..i] == order[..i];
      if order[i] != e.source && order[i] != e.target {
        NeedsSnoc(l, Obstacles(e, discs, order[..i]), discs[order[i]]);
        n := Consider(l, discs[order[i]], n);
      }
    }
    assert order[..|order|] == order;
    if !n.blocked {
      return base;
    }
    var cap := MAX_BEND_RATIO * l.length;
    return if n.left <= n.right then Smaller(n.left, cap) + base else -(Smaller(n.right, cap) + base);
  }

  lemma NoObstacles(l: Line)
    requires l.length > 0.0
    ensures NeedsOf(l, []) == Needs(0.0, 0.0, false)
  {
  }

  lemma NeedsSnoc(l: Line, os: seq<Disc>, o: Disc)
    requires l.length > 0.0
    ensures NeedsOf(l, os + [o]) == Widened(NeedsOf(l, os), l, o)
  {
    assert (os + [o])[..|os|] == os;
  }

  /** No later edge has the same id. */
  predicate IsLastListing(edges: seq<Link>, i: nat) {
    i < |edges| && forall j :: i < j < |edges| ==> edges[j].id != edges[i].id
  }

  /** Every id listed so far has the bend of its last listing. */
  ghost predicate Routed(edges: seq<Link>, n: nat, bends: map<string, real>, bend: Link -> real)
    requires n <= |edges|
  {
    && (forall i :: 0 <= i < n && IsLastListing(edges[..n], i) ==>
      edges[i].id in bends && bends[edges[i].id] == bend(edges[i]))
    && (forall id :: id in bends ==> exists i :: 0 <= i < n && edges[i].id == id)
  }

  lemma OneMoreRouted(edges: seq<Link>, n: nat, bends: map<string, real>, bend: Link -> real)
    requires n < |edges| && Routed(edges, n, bends, bend)
    ensures Routed(edges, n + 1, bends[edges[n].id := bend(edges[n])], bend)
  {
    LastListings(edges, n);
    hide IsLastListing;
  }

  /** Routes every edge, the last one listed under an id deciding; an edge without a parallel bend starts
      from none. */
  method RouteBends(edges: seq<Link>, discs: map<string, Disc>, order: seq<string>, parallel: map<string, int>,
      hypot: (real, real) -> real)
    returns (bends: map<string, real>)
    requires forall id :: id in order <==> id in discs
    requires IsHypot(hypot)
    ensures forall i :: 0 <= i < |edges| && IsLastListing(edges, i) ==>
      && edges[i].id in bends
      && bends[edges[i].id] == BendOf(edges[i], discs, order, BaseOf(parallel, edges[i].id), hypot)
    ensures forall id :: id in bends ==> exists i :: 0 <= i < |edges| && edges[i].id == id
  {
    hide BendOf, IsHypot, IsLastListing;
    bends := map[];
    ghost var goal := (e: Link) => BendOf(e, discs, order, BaseOf(parallel, e.id), hypot);
    for n := 0 to |edges|
      invariant Routed(edges, n, bends, goal)
    {
      hide Routed;
      var bend := RouteEdge(edges[n], discs, order, BaseOf(parallel, edges[n].id), hypot);
      OneMoreRouted(edges, n, bends, goal);
      bends := bends[edges[n].id := bend];
    }
    assert edges[..|edges|] == edges;
  }

  lemma LastListings(edges: seq<Link>, n: nat)
    requires n < |edges|
    ensures forall i :: 0 <= i < n && IsLastListing(edges[..n + 1], i) ==>
      IsLastListing(edges[..n], i) && edges[i].id != edges[n].id
  {
    forall i | 0 <= i < n && IsLastListing(edges[..n + 1], i)
      ensures IsLastListing(edges[..n], i) && edges[i].id != edges[n].id
    {
      assert edges[..n + 1][n] == edges[n] && edges[..n + 1][i] == edges[i];
      forall j | i < j < n ensures edges[..n][j].id != edges[i].id { assert edges[..n + 1][j] == edges[j]; }
    }
  }

  function BaseOf(parallel: map<string, int>, id: string): real { if id in parallel then parallel[id] as real else 0.0 }

  /** Different positive bases give different bends, in either direction of travel. */
  lemma BendsStayApart(l: Line, os: seq<Disc>, p: real, q: real)
    requires l.Proper() && p > 0.0 && q > 0.0 && p != q
    ensures l.Reversed().Proper()
    ensures Bend(l, os, p) != Bend(l, os, q)
    ensures Bend(l, os, p) != -Bend(l.Reversed(), os, q)
  {
    NeedsReversed(l, os);
    NeedsAreExact(l, os, 0.0);
    hide NeedsOf, ClearsAll, Blocks;
    assert MAX_BEND_RATIO * l.length > 0.0;
  }

  lemma {:induction false} SameObstacles(a: Link, b: Link, discs: map<string, Disc>, order: seq<string>)
    requires forall id :: id in order ==> id in discs
    requires (a.source == b.source && a.target == b.target) || (a.source == b.target && a.target == b.source)
    ensures Obstacles(a, discs, order) == Obstacles(b, discs, order)
  {
    if order != [] {
      SameObstacles(a, b, discs, order[..|order| - 1]);
    }
  }

  lemma ReversedLength(a: Disc, b: Disc, hypot: (real, real) -> real)
    requires IsHypot(hypot)
    ensures LineOf(b, a, hypot) == LineOf(a, b, hypot).Reversed()
    ensures LineOf(a, b, hypot).length > 0.0 ==> LineOf(a, b, hypot).Proper()
  {
    var h, k := hypot(b.x - a.x, b.y - a.y), hypot(a.x - b.x, a.y - b.y);
    assert Square(b.x - a.x) == Square(a.x - b.x) && Square(b.y - a.y) == Square(a.y - b.y);
    SameRoot(h, k);
  }

  lemma SameRoot(h: real, k: real)
    requires h >= 0.0 && k >= 0.0 && Square(h) == Square(k)
    ensures h == k
  {
    assert (h - k) * (h + k) == Square(h) - Square(k);
    if h + k > 0.0 {
      ZeroFactor(h - k, h + k);
    }
  }

  /**
   However many edges two nodes share, in whichever directions, and whatever lies between them: with
   the bends the two passes give them, no two of their curves have a point in common between the ends.
   */
  lemma SiblingsNeverMeet(edges: seq<Link>, a: Link, b: Link, discs: map<string, Disc>, order: seq<string>,
      hypot: (real, real) -> real, t: real, s: real)
    requires a in edges && b in edges && a.id != b.id && PairOf(a) == PairOf(b)
    requires forall id :: id in order ==> id in discs
    requires IsHypot(hypot) && Drawable(a, discs, hypot) && 0.0 < t < 1.0 && 0.0 < s < 1.0
    ensures Drawable(b, discs, hypot)
    ensures Curve(LineOf(discs[a.source], discs[a.target], hypot),
      BendOf(a, discs, order, Base(edges, a) as real, hypot), t)
         != Curve(LineOf(discs[b.source], discs[b.target], hypot),
           BendOf(b, discs, order, Base(edges, b) as real, hypot), s)
  {
    SamePairMeans(a, b);
    BasesDiffer(edges, a, b);
    SameObstacles(a, b, discs, order);
    ReversedLength(discs[a.source], discs[a.target], hypot);
    hide IsHypot, Base, Obstacles, Bend, PairOf, Curve;
    var l, os := LineOf(discs[a.source], discs[a.target], hypot), Obstacles(a, discs, order);
    var p, q := Base(edges, a) as real, Base(edges, b) as real;
    BendsStayApart(l, os, p, q);
    if a.source == b.source {
      OnlyIfSame(l, Bend(l, os, p), Bend(l, os, q), t, s);
    } else {
      CurveReversed(l, Bend(l.Reversed(), os, q), 1.0 - s);
      OnlyIfSame(l, Bend(l, os, p), -Bend(l.Reversed(), os, q), t, 1.0 - s);
    }
  }

  lemma OnlyIfSame(l: Line, p: real, q: real, t: real, s: real)
    requires l.Proper() && 0.0 < t < 1.0 && 0.0 < s < 1.0 && p != q
    ensures Curve(l, p, t) != Curve(l, q, s)
  {
    if Curve(l, p, t) == Curve(l, q, s) {
      CurvesMeet(l, p, q, t, s);
    }
  }
}
