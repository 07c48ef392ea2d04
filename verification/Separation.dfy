/**
 Moving nodes down until no two boxes come within the gap, in a given order. Coordinates are exact.

 Each node settles at the least height, not above where it was, that is clear of every node settled
 before it, so the outcome depends on the order of the nodes and on nothing else.
 */
module Separation {
  import opened Tallies

  const NODE_GAP := 32.0

  datatype Point = Point(x: real, y: real)

  datatype Size = Size(width: real, height: real)

  datatype Box = Box(at: Point, size: Size) {
    function Bottom(): real { at.y + size.height + NODE_GAP }
    function Right(): real { at.x + size.width + NODE_GAP }
  }

  type Positions = map<string, Point>

  function At(positions: Positions, id: string): Point {
    if id in positions then positions[id] else Point(0.0, 0.0)
  }

  /** The two boxes come within the gap of each other. */
  predicate Hits(a: Box, b: Box) {
    a.at.x < b.Right() && b.at.x < a.Right() && a.at.y < b.Bottom() && b.at.y < a.Bottom()
  }

  /** One box lies at least 32 pixels to the left of, right of, above or below the other. */
  predicate Clear(a: Box, b: Box) {
    || a.at.x + a.size.width + 32.0 <= b.at.x || b.at.x + b.size.width + 32.0 <= a.at.x
    || a.at.y + a.size.height + 32.0 <= b.at.y || b.at.y + b.size.height + 32.0 <= a.at.y
  }

  predicate Free(placed: seq<Box>, b: Box) {
    forall i :: 0 <= i < |placed| ==> Clear(b, placed[i])
  }

  /** The first placed box that `b` hits, if any. */
  function FirstHit(placed: seq<Box>, b: Box): (r: Option<Box>)
    ensures r.None? <==> Free(placed, b)
    ensures r.Some? ==> r.value in placed && Hits(b, r.value)
  {
    if placed == [] then None
    else if Hits(b, placed[0]) then Some(placed[0])
    else
      var r := FirstHit(placed[1..], b);
      assert r.None? ==> forall i :: 1 <= i < |placed| ==> placed[i] == placed[1..][i - 1];
      assert forall i :: 0 <= i < |placed| - 1 ==> placed[1..][i] == placed[i + 1];
      r
  }

  predicate FreeAt(placed: seq<Box>, x: real, y: real, size: Size) { Free(placed, Box(Point(x, y), size)) }

  /** `y` is the least height at or below `from` (y grows downwards) that is clear of `placed`. */
  ghost predicate Lowest(placed: seq<Box>, x: real, from: real, y: real, size: Size) {
    && from <= y && FreeAt(placed, x, y, size)
    && forall h: real :: from <= h < y ==> !FreeAt(placed, x, h, size)
  }

  lemma LowestUnique(placed: seq<Box>, x: real, from: real, y: real, z: real, size: Size)
    requires Lowest(placed, x, from, y, size) && Lowest(placed, x, from, z, size)
    ensures y == z
  {
    assert y < z ==> !FreeAt(placed, x, y, size);
    assert z < y ==> !FreeAt(placed, x, z, size);
  }

  /** Which of the placed boxes still reach below height `y`. */
  function Reaching(placed: seq<Box>, y: real): set<nat> {
    set i: nat | i < |placed| && y < placed[i].Bottom()
  }

  lemma Skipped(placed: seq<Box>, at: Point, size: Size, hit: Box, y: real)
    requires hit in placed && Hits(Box(at, size), hit) && at.y <= y < hit.Bottom()
    ensures !FreeAt(placed, at.x, y, size)
  {
    var i :| 0 <= i < |placed| && placed[i] == hit;
    assert Hits(Box(Point(at.x, y), size), placed[i]);
  }

  /** Moves one box down past each box it hits; each one it passes is left behind for good. */
  method Drop(placed: seq<Box>, start: Point, size: Size) returns (at: Point, moved: bool)
    ensures at.x == start.x && Lowest(placed, start.x, start.y, at.y, size)
    ensures moved <==> at != start
  {
    at, moved := start, false;
    while true
      invariant at.x == start.x && start.y <= at.y
      invariant forall h: real :: start.y <= h < at.y ==> !FreeAt(placed, start.x, h, size)
      invariant moved <==> at != start
      decreases |Reaching(placed, at.y)|
    {
      var hit := FirstHit(placed, Box(at, size));
      if hit.None? {
        break;
      }
      var next := Point(at.x, hit.value.Bottom());
      forall h: real | start.y <= h < next.y ensures !FreeAt(placed, start.x, h, size) {
        if at.y <= h {
          Skipped(placed, at, size, hit.value, h);
        }
      }
      var i: nat :| i < |placed| && placed[i] == hit.value;
      assert i in Reaching(placed, at.y) && i !in Reaching(placed, next.y);
      ProperSubset(Reaching(placed, next.y), Reaching(placed, at.y), i);
      at, moved := next, true;
    }
  }

  lemma ProperSubset(a: set<nat>, b: set<nat>, i: nat)
    requires a <= b && i in b && i !in a
    ensures |a| < |b|
  {
    SubsetSize(a, b - {i});
  }

  function BoxAt(positions: Positions, boxOf: string -> Size, id: string): Box { Box(At(positions, id), boxOf(id)) }

  predicate Apart(boxes: seq<Box>) {
    forall i, j :: 0 <= i < j < |boxes| ==> Clear(boxes[i], boxes[j])
  }

  function Boxes(order: seq<string>, positions: Positions, boxOf: string -> Size): seq<Box> {
    seq(|order|, i requires 0 <= i < |order| => BoxAt(positions, boxOf, order[i]))
  }

  predicate Distinct(order: seq<string>) {
    forall i, j :: 0 <= i < j < |order| ==> order[i] != order[j]
  }

  /** Every node is as low as the ones settled before it force it to be, and no lower. */
  ghost predicate Settled(order: seq<string>, before: Positions, after: Positions, boxOf: string -> Size) {
    && |Boxes(order, after, boxOf)| == |order|
    && (forall id :: id !in order ==> At(after, id) == At(before, id))
    && (forall i :: 0 <= i < |order| ==> At(after, order[i]).x == At(before, order[i]).x)
    && (forall i :: 0 <= i < |order| ==>
          Lowest(Boxes(order, after, boxOf)[..i], At(before, order[i]).x, At(before, order[i]).y,
            At(after, order[i]).y, boxOf(order[i])))
  }

  /** A settled layout is separated, moves nothing sideways or up, and touches nothing that was already apart. */
  lemma SettledIsSeparated(order: seq<string>, before: Positions, after: Positions, boxOf: string -> Size)
    requires Settled(order, before, after, boxOf)
    ensures Apart(Boxes(order, after, boxOf))
    ensures forall id :: At(after, id).x == At(before, id).x && At(before, id).y <= At(after, id).y
    ensures Apart(Boxes(order, before, boxOf)) <==> forall id :: At(after, id) == At(before, id)
  {
    var bs := Boxes(order, after, boxOf);
    forall i, j | 0 <= i < j < |bs| ensures Clear(bs[i], bs[j]) {
      assert FreeAt(bs[..j], At(before, order[j]).x, At(after, order[j]).y, boxOf(order[j]));
      assert bs[..j][i] == bs[i];
    }
    forall id ensures At(after, id).x == At(before, id).x && At(before, id).y <= At(after, id).y {
      if id in order {
        var i :| 0 <= i < |order| && order[i] == id;
        assert Lowest(bs[..i], At(before, order[i]).x, At(before, order[i]).y, At(after, order[i]).y, boxOf(order[i]));
      }
    }
    if Apart(Boxes(order, before, boxOf)) {
      ApartStays(order, before, after, boxOf, |order|);
    } else {
      assert (forall id :: At(after, id) == At(before, id)) ==> Boxes(order, before, boxOf) == bs;
    }
  }

  lemma {:induction false} ApartStays(order: seq<string>, before: Positions, after: Positions, boxOf: string -> Size,
      n: nat)
    requires Settled(order, before, after, boxOf) && Apart(Boxes(order, before, boxOf)) && n <= |order|
    ensures forall i :: 0 <= i < n ==> At(after, order[i]) == At(before, order[i])
  {
    if n > 0 {
      ApartStays(order, before, after, boxOf, n - 1);
      var k := n - 1;
      var was, now := Boxes(order, before, boxOf), Boxes(order, after, boxOf);
      var p := At(before, order[k]);
      forall i | 0 <= i < k ensures Clear(Box(Point(p.x, p.y), boxOf(order[k])), now[..k][i]) {
        assert now[i] == was[i] && Clear(was[i], was[k]);
      }
      assert FreeAt(now[..k], p.x, p.y, boxOf(order[k]));
      assert Lowest(now[..k], p.x, p.y, At(after, order[k]).y, boxOf(order[k]));
    }
  }

  /** Where each node ends up is determined: the order in which hits are found cannot matter. */
  lemma {:induction false} SettledUnique(order: seq<string>, before: Positions, a: Positions, b: Positions,
      boxOf: string -> Size, n: nat)
    requires Settled(order, before, a, boxOf) && Settled(order, before, b, boxOf) && n <= |order|
    ensures forall i :: 0 <= i < n ==> At(a, order[i]) == At(b, order[i])
  {
    if n > 0 {
      SettledUnique(order, before, a, b, boxOf, n - 1);
      var k := n - 1;
      assert Boxes(order, a, boxOf)[..k] == Boxes(order, b, boxOf)[..k];
      LowestUnique(Boxes(order, a, boxOf)[..k], At(before, order[k]).x, At(before, order[k]).y, At(a, order[k]).y,
        At(b, order[k]).y, boxOf(order[k]));
    }
  }

  /** Where a node stands once the first `n` entries have been put down as `boxes`. */
  function Where(order: seq<string>, boxes: seq<Box>, before: Positions, n: nat, id: string): Point
    requires n <= |order| && n <= |boxes|
  {
    if n == 0 then At(before, id)
    else if order[n - 1] == id then boxes[n - 1].at
    else Where(order, boxes, before, n - 1, id)
  }

  /** Entry `i` was put down straight below where its node stood, at the least height clear of the boxes before it. */
  ghost predicate PutDown(order: seq<string>, boxes: seq<Box>, before: Positions, boxOf: string -> Size, i: nat)
    requires i < |order| && i < |boxes|
  {
    var from := Where(order, boxes, before, i, order[i]);
    && boxes[i].size == boxOf(order[i]) && boxes[i].at.x == from.x
    && Lowest(boxes[..i], from.x, from.y, boxes[i].at.y, boxOf(order[i]))
  }

  /** The first `n` entries have been put down as `boxes`, and every node stands where it was last put. */
  ghost predicate Placed(order: seq<string>, n: nat, before: Positions, now: Positions, boxes: seq<Box>,
      boxOf: string -> Size) {
    && n == |boxes| <= |order|
    && (forall id :: At(now, id) == Where(order, boxes, before, n, id))
    && (forall i :: 0 <= i < n ==> PutDown(order, boxes, before, boxOf, i))
  }

  lemma {:induction false} WhereGrows(order: seq<string>, boxes: seq<Box>, b: Box, before: Positions, n: nat,
      id: string)
    requires n <= |order| && n <= |boxes|
    ensures Where(order, boxes + [b], before, n, id) == Where(order, boxes, before, n, id)
  {
    if n > 0 {
      WhereGrows(order, boxes, b, before, n - 1, id);
    }
  }

  lemma OneMorePlaced(order: seq<string>, n: nat, before: Positions, now: Positions, next: Positions, boxes: seq<Box>,
      boxOf: string -> Size, at: Point)
    requires n < |order| && Placed(order, n, before, now, boxes, boxOf)
    requires at.x == At(now, order[n]).x && Lowest(boxes, at.x, At(now, order[n]).y, at.y, boxOf(order[n]))
    requires forall id :: At(next, id) == if id == order[n] then at else At(now, id)
    ensures Placed(order, n + 1, before, next, boxes + [Box(at, boxOf(order[n]))], boxOf)
  {
    var b := Box(at, boxOf(order[n]));
    var boxes' := boxes + [b];
    hide Lowest;
    forall i | 0 <= i < n + 1 ensures PutDown(order, boxes', before, boxOf, i) {
      WhereGrows(order, boxes, b, before, i, order[i]);
      assert boxes'[..i] == boxes[..i];
      if i < n {
        assert PutDown(order, boxes, before, boxOf, i);
      } else {
        assert boxes[..n] == boxes;
      }
    }
    forall id ensures At(next, id) == Where(order, boxes', before, n + 1, id) {
      WhereGrows(order, boxes, b, before, n, id);
    }
  }

  /** Boxes put down so are apart from each other. */
  lemma PlacedAreApart(order: seq<string>, n: nat, before: Positions, now: Positions, boxes: seq<Box>,
      boxOf: string -> Size)
    requires Placed(order, n, before, now, boxes, boxOf)
    ensures Apart(boxes)
  {
    forall i, j | 0 <= i < j < |boxes| ensures Clear(boxes[i], boxes[j]) {
      assert PutDown(order, boxes, before, boxOf, j);
      var from := Where(order, boxes, before, j, order[j]);
      assert FreeAt(boxes[..j], from.x, boxes[j].at.y, boxOf(order[j]));
      assert boxes[..j][i] == boxes[i];
    }
  }

  /** No node is ever moved sideways or up. */
  lemma {:induction false} OnlyDown(order: seq<string>, before: Positions, boxes: seq<Box>, boxOf: string -> Size,
      n: nat, id: string)
    requires n <= |boxes| <= |order| && forall i :: 0 <= i < |boxes| ==> PutDown(order, boxes, before, boxOf, i)
    ensures Where(order, boxes, before, n, id).x == At(before, id).x &&
      At(before, id).y <= Where(order, boxes, before, n, id).y
  {
    if n > 0 {
      OnlyDown(order, before, boxes, boxOf, n - 1, id);
      assert PutDown(order, boxes, before, boxOf, n - 1);
    }
  }

  lemma {:induction false} NotYetMoved(order: seq<string>, boxes: seq<Box>, before: Positions, n: nat, id: string)
    requires n <= |order| && n <= |boxes| && id !in order[..n]
    ensures Where(order, boxes, before, n, id) == At(before, id)
  {
    if n > 0 {
      assert order[..n] == order[..n - 1] + [order[n - 1]];
      NotYetMoved(order, boxes, before, n - 1, id);
    }
  }

  lemma {:induction false} StandsWherePut(order: seq<string>, boxes: seq<Box>, before: Positions, n: nat, i: nat)
    requires Distinct(order) && i < n <= |order| && n <= |boxes|
    ensures Where(order, boxes, before, n, order[i]) == boxes[i].at
  {
    if i < n - 1 {
      StandsWherePut(order, boxes, before, n - 1, i);
    }
  }

  /** With no node listed twice, that is the settled layout. */
  lemma PlacedIsSettled(order: seq<string>, before: Positions, after: Positions, boxes: seq<Box>, boxOf: string -> Size)
    requires Placed(order, |order|, before, after, boxes, boxOf) && Distinct(order)
    ensures Settled(order, before, after, boxOf) && boxes == Boxes(order, after, boxOf)
  {
    assert order[..|order|] == order;
    forall i | 0 <= i < |order| ensures boxes[i] == BoxAt(after, boxOf, order[i]) {
      StandsWherePut(order, boxes, before, |order|, i);
      assert PutDown(order, boxes, before, boxOf, i);
    }
    assert boxes == Boxes(order, after, boxOf);
    forall id | id !in order ensures At(after, id) == At(before, id) {
      NotYetMoved(order, boxes, before, |order|, id);
    }
    forall i | 0 <= i < |order|
      ensures At(after, order[i]).x == At(before, order[i]).x
      ensures Lowest(Boxes(order, after, boxOf)[..i], At(before, order[i]).x, At(before, order[i]).y,
        At(after, order[i]).y, boxOf(order[i]))
    {
      hide Lowest;
      assert PutDown(order, boxes, before, boxOf, i);
      assert order[i] !in order[..i];
      NotYetMoved(order, boxes, before, i, order[i]);
    }
  }

  class Layout {
    var positions: Positions

    constructor (positions: Positions)
      ensures this.positions == positions
    {
      this.positions := positions;
    }

    /** Settles every entry of `order` in turn. `placed` is where each was put down; a node listed twice moves
        clear of itself. */
    method Separate(order: seq<string>, boxOf: string -> Size) returns (ghost placed: seq<Box>)
      modifies this
      ensures Placed(order, |order|, old(positions), positions, placed, boxOf)
      ensures Apart(placed) && (Distinct(order) ==> Settled(order, old(positions), positions, boxOf))
      ensures forall id :: id in positions ==> id in old(positions) || id in order
      ensures forall id ::
        At(positions, id).x == At(old(positions), id).x && At(old(positions), id).y <= At(positions, id).y
    {
      var boxes: seq<Box> := [];
      for n := 0 to |order|
        invariant Placed(order, n, old(positions), positions, boxes, boxOf)
        invariant forall id :: id in positions ==> id in old(positions) || id in order
      {
        hide Placed, Lowest;
        var id := order[n];
        var size := boxOf(id);
        var at, moved := Drop(boxes, At(positions, id), size);
        ghost var now := positions;
        if moved {
          positions := positions[id := at];
        }
        OneMorePlaced(order, n, old(positions), now, positions, boxes, boxOf, at);
        boxes := boxes + [Box(at, size)];
      }
      placed := boxes;
      PlacedAreApart(order, |order|, old(positions), positions, boxes, boxOf);
      if Distinct(order) {
        PlacedIsSettled(order, old(positions), positions, boxes, boxOf);
      }
      forall id ensures At(positions, id).x == At(old(positions), id).x &&
        At(old(positions), id).y <= At(positions, id).y {
        OnlyDown(order, old(positions), boxes, boxOf, |order|, id);
      }
    }
  }
}
