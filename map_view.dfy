/**
 Model of src/components/Map/Map.jsx: the mouse drag / wheel zoom controller of
 the map. It is idle or dragging; a press captures the offset between pointer and
 map position, each move places the map at pointer minus that offset, and the
 wheel multiplies the scale by 0.9 or 1.1 within [0.5, 3].
 */
module MapView {

  datatype Point = Point(x: real, y: real)

  function Add(a: Point, b: Point): Point {
    Point(a.x + b.x, a.y + b.y)
  }

  function Sub(a: Point, b: Point): Point {
    Point(a.x - b.x, a.y - b.y)
  }

  const MinScale: real := 0.5
  const MaxScale: real := 3.0
  /** Wheel scrolled down (deltaY > 0) zooms out, otherwise in. */
  const ZoomOutFactor: real := 0.9
  const ZoomInFactor: real := 1.1

  function Max(a: real, b: real): real { if a >= b then a else b }
  function Min(a: real, b: real): real { if a <= b then a else b }

  predicate ScaleInRange(scale: real) {
    MinScale <= scale <= MaxScale
  }

  /** `Math.max(0.5, Math.min(3, v))`: `v` clamped to the zoom range. */
  function ClampScale(v: real): (r: real)
    ensures ScaleInRange(r)
    ensures ScaleInRange(v) ==> r == v
    ensures v < MinScale ==> r == MinScale
    ensures v > MaxScale ==> r == MaxScale
  {
    Max(MinScale, Min(MaxScale, v))
  }

  /** The scale after one wheel event. */
  function WheelScale(scale: real, deltaY: real): (r: real)
    ensures ScaleInRange(r)
    ensures var v := scale * (if deltaY > 0.0 then ZoomOutFactor else ZoomInFactor);
              (ScaleInRange(v) ==> r == v) && (v < MinScale ==> r == MinScale) && (v > MaxScale ==> r == MaxScale)
    ensures deltaY > 0.0 && scale >= MinScale ==> r <= scale
    ensures deltaY <= 0.0 && scale <= MaxScale ==> r >= scale
  {
    var factor := if deltaY > 0.0 then ZoomOutFactor else ZoomInFactor;
    ClampScale(scale * factor)
  }

  /** The controller's state as one value. */
  datatype PanZoom = PanZoom(position: Point, scale: real, isDragging: bool, dragStart: Point)

  /** The pointer and wheel events the controller handles. `onHotspot` says whether
      the press target lies inside a landmark hotspot. */
  datatype Event =
    | MouseDown(pointer: Point, onHotspot: bool)
    | MouseMove(pointer: Point)
    | MouseUp
    | Wheel(deltaY: real)

  /** The effect of one event. */
  function Step(s: PanZoom, e: Event): PanZoom
  {
    match e
    case MouseDown(p, onHotspot) =>
      if onHotspot then s else s.(isDragging := true, dragStart := Sub(p, s.position))
    case MouseMove(p) =>
      if !s.isDragging then s else s.(position := Sub(p, s.dragStart))
    case MouseUp => s.(isDragging := false)
    case Wheel(d) => s.(scale := WheelScale(s.scale, d))
  }

  /** The effect of a sequence of events, handled in order. */
  function Run(s: PanZoom, evs: seq<Event>): PanZoom
    decreases |evs|
  {
    if evs == [] then s else Run(Step(s, evs[0]), evs[1..])
  }

  predicate NoWheel(evs: seq<Event>) {
    forall i :: 0 <= i < |evs| ==> !evs[i].Wheel?
  }

  predicate OnlyWheel(evs: seq<Event>) {
    forall i :: 0 <= i < |evs| ==> evs[i].Wheel?
  }

  predicate OnlyMoves(evs: seq<Event>) {
    forall i :: 0 <= i < |evs| ==> evs[i].MouseMove?
  }

  /** Once in the zoom range, the scale stays there whatever events follow. */
  lemma {:induction false} RunKeepsScaleInRange(s: PanZoom, evs: seq<Event>)
    requires ScaleInRange(s.scale)
    ensures ScaleInRange(Run(s, evs).scale)
    decreases |evs|
  {
    if evs != [] {
      RunKeepsScaleInRange(Step(s, evs[0]), evs[1..]);
    }
  }

  /** Pointer events never change the scale. */
  lemma {:induction false} PointerEventsKeepScale(s: PanZoom, evs: seq<Event>)
    requires NoWheel(evs)
    ensures Run(s, evs).scale == s.scale
    decreases |evs|
  {
    if evs != [] {
      assert NoWheel(evs[1..]) by {
        forall i | 0 <= i < |evs[1..]| ensures !evs[1..][i].Wheel? {
          assert evs[1..][i] == evs[i + 1];
        }
      }
      PointerEventsKeepScale(Step(s, evs[0]), evs[1..]);
    }
  }

  /** Wheel events never change the position, the drag offset or the drag state. */
  lemma {:induction false} WheelEventsKeepPan(s: PanZoom, evs: seq<Event>)
    requires OnlyWheel(evs)
    ensures Run(s, evs).position == s.position
    ensures Run(s, evs).dragStart == s.dragStart
    ensures Run(s, evs).isDragging == s.isDragging
    decreases |evs|
  {
    if evs != [] {
      assert OnlyWheel(evs[1..]) by {
        forall i | 0 <= i < |evs[1..]| ensures evs[1..][i].Wheel? {
          assert evs[1..][i] == evs[i + 1];
        }
      }
      WheelEventsKeepPan(Step(s, evs[0]), evs[1..]);
    }
  }

  /** During a drag, the position after any non-empty run of moves depends only on
      the last pointer: moves are absolute, so nothing accumulates. */
  lemma {:induction false} MovesFollowLastPointer(s: PanZoom, evs: seq<Event>)
    requires s.isDragging
    requires |evs| > 0 && OnlyMoves(evs)
    ensures Run(s, evs).position == Sub(evs[|evs| - 1].pointer, s.dragStart)
    ensures Run(s, evs).isDragging && Run(s, evs).dragStart == s.dragStart
    ensures Run(s, evs).scale == s.scale
    decreases |evs|
  {
    var next := Step(s, evs[0]);
    if |evs| == 1 {
      assert evs[1..] == [];
    } else {
      assert OnlyMoves(evs[1..]) by {
        forall i | 0 <= i < |evs[1..]| ensures evs[1..][i].MouseMove? {
          assert evs[1..][i] == evs[i + 1];
        }
      }
      MovesFollowLastPointer(next, evs[1..]);
      assert evs[1..][|evs[1..]| - 1] == evs[|evs| - 1];
    }
  }

  /** A press away from the hotspots followed by moves displaces the map by exactly
      the pointer's displacement since the press; moving back to the press point
      restores the original position. */
  lemma DragDisplacesByPointerDelta(s: PanZoom, press: Point, moves: seq<Event>)
    requires |moves| > 0 && OnlyMoves(moves)
    ensures Run(Step(s, MouseDown(press, false)), moves).position
         == Add(s.position, Sub(moves[|moves| - 1].pointer, press))
    ensures moves[|moves| - 1].pointer == press
         ==> Run(Step(s, MouseDown(press, false)), moves).position == s.position
  {
    MovesFollowLastPointer(Step(s, MouseDown(press, false)), moves);
  }

  /** The controller of one map view. */
  class MapController {
    var position: Point
    var scale: real
    var isDragging: bool
    var dragStart: Point

    /** The controller's fields as one value. */
    function State(): PanZoom
      reads this
    {
      PanZoom(position, scale, isDragging, dragStart)
    }

    /** A fresh controller: idle, with the drag offset at the origin. */
    constructor (initialPosition: Point, initialScale: real)
      ensures position == initialPosition && scale == initialScale
      ensures !isDragging && dragStart == Point(0.0, 0.0)
    {
      position := initialPosition;
      scale := initialScale;
      isDragging := false;
      dragStart := Point(0.0, 0.0);
    }

    /** A press inside a hotspot is left to the hotspot; elsewhere it starts a drag. */
    method HandleMouseDown(pointer: Point, onHotspot: bool)
      modifies this
      ensures onHotspot ==> unchanged(this)
      ensures !onHotspot ==> isDragging && dragStart == Sub(pointer, old(position))
      ensures position == old(position) && scale == old(scale)
      ensures State() == Step(old(State()), MouseDown(pointer, onHotspot))
    {
      if onHotspot {
        return;
      }
      isDragging := true;
      dragStart := Sub(pointer, position);
    }

    method HandleMouseMove(pointer: Point)
      modifies this
      ensures !old(isDragging) ==> unchanged(this)
      ensures old(isDragging) ==> position == Sub(pointer, dragStart)
      ensures isDragging == old(isDragging) && dragStart == old(dragStart) && scale == old(scale)
      ensures State() == Step(old(State()), MouseMove(pointer))
    {
      if !isDragging {
        return;
      }
      position := Sub(pointer, dragStart);
    }

    method HandleMouseUp()
      modifies this
      ensures !isDragging
      ensures position == old(position) && scale == old(scale) && dragStart == old(dragStart)
      ensures State() == Step(old(State()), MouseUp)
    {
      isDragging := false;
    }

    method HandleWheel(deltaY: real)
      modifies this
      ensures ScaleInRange(scale)
      ensures deltaY > 0.0 && old(scale) >= MinScale ==> scale <= old(scale)
      ensures deltaY <= 0.0 && old(scale) <= MaxScale ==> scale >= old(scale)
      ensures position == old(position) && isDragging == old(isDragging) && dragStart == old(dragStart)
      ensures State() == Step(old(State()), Wheel(deltaY))
    {
      scale := WheelScale(scale, deltaY);
    }
  }
}
