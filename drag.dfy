/** Pointer geometry of a drag gesture (kanban-tui/board.py:202-244): where
    the dragged card is drawn and which column the pointer is released over. */
module Drag {

  import opened Options

  datatype Point = Point(x: int, y: int)

  function Add(a: Point, b: Point): Point { Point(a.x + b.x, a.y + b.y) }

  function Sub(a: Point, b: Point): Point { Point(a.x - b.x, a.y - b.y) }

  /** The screen rectangle a column widget occupies. */
  datatype Region = Region(x: int, y: int, width: int, height: int)

  /** Half-open containment, as the widget library's region test. */
  predicate Contains(r: Region, p: Point)
  {
    r.x <= p.x < r.x + r.width && r.y <= p.y < r.y + r.height
  }

  /** The first column, left to right from `from`, whose region contains the
      point. */
  function FirstContaining(regions: seq<Region>, p: Point, from: nat): (r: Option<nat>)
    requires from <= |regions|
    ensures r.Some? ==> from <= r.value < |regions| && Contains(regions[r.value], p)
    ensures r.Some? ==> forall k :: from <= k < r.value ==> !Contains(regions[k], p)
    ensures r.None? ==> forall k :: from <= k < |regions| ==> !Contains(regions[k], p)
    decreases |regions| - from
  {
    if from == |regions| then None
    else if Contains(regions[from], p) then Some(from)
    else FirstContaining(regions, p, from + 1)
  }

  /** The release loop of `end_dragging`: scan the columns in order and stop
      at the first whose region contains the pointer. */
  method ResolveTarget(regions: seq<Region>, p: Point) returns (target: Option<nat>)
    ensures target == FirstContaining(regions, p, 0)
  {
    target := None;
    var k := 0;
    while k < |regions|
      invariant 0 <= k <= |regions|
      invariant FirstContaining(regions, p, 0) == FirstContaining(regions, p, k)
    {
      if Contains(regions[k], p) {
        target := Some(k);
        return;
      }
      k := k + 1;
    }
  }

  /** The grab offset recorded at press and the offset drawn at a later
      pointer position: the card follows the pointer by exactly the pointer's
      displacement, so it does not jump when the pointer has not moved. */
  lemma FollowsPointer(cardOffset: Point, pressedAt: Point, pointer: Point)
    ensures Sub(pointer, Sub(pressedAt, cardOffset)) == Add(cardOffset, Sub(pointer, pressedAt))
    ensures Sub(pressedAt, Sub(pressedAt, cardOffset)) == cardOffset
  {
  }
}
