/**
 * The pointer-driven drawing state machine of src/index.js: a gesture start
 * (`handleMouseDown`), moves (`handleMouseMove`) and its end
 * (`handleMouseUp`). Pointer positions arrive already translated into
 * canvas-local integer coordinates; the canvas is `[0, W] x [0, H]`.
 *
 * The pure functions below are the specification of one transition each;
 * the class `Controller` keeps the source's component state in fields and
 * its methods are proved to perform those transitions.
 */
module Drawing {
  import opened Options
  import opened BoxGeometry

  /** A canvas-local pointer position. */
  datatype Point = Point(x: int, y: int)

  /** The component state: the `drawing` flag and the raw box, if any. */
  datatype Session = Session(drawing: bool, box: Option<Box>)

  const Idle := Session(false, None)

  /** What a gesture end produces: the new state and the tracker's initial box. */
  datatype Finished = Finished(after: Session, seed: Box)

  /** `Math.min(hi, Math.max(0, v))`: the nearest value to `v` in `[0, hi]`. */
  function Clamp(v: int, hi: nat): (r: int)
    ensures 0 <= r <= hi
    ensures 0 <= v <= hi ==> r == v
    ensures v < 0 ==> r == 0
    ensures hi < v ==> r == hi
  {
    Min(hi, Max(0, v))
  }

  function Anchor(b: Box): Point { Point(b.x, b.y) }

  function Tip(b: Box): Point { Point(b.x + b.w, b.y + b.h) }

  /** The box anchored at `a` whose tip is `t`. */
  function Spanning(a: Point, t: Point): (b: Box)
    ensures Anchor(b) == a && Tip(b) == t
  {
    Box(a.x, a.y, t.x - a.x, t.y - a.y)
  }

  /** The state a move handler can act on: while drawing there is a box. */
  predicate WellFormed(s: Session) {
    s.drawing ==> s.box.Some?
  }

  /** The state invariant: well formed, and any box has both corners in the canvas. */
  predicate Inv(W: nat, H: nat, s: Session) {
    WellFormed(s) && (s.box.Some? ==> CornersInCanvas(s.box.value, W, H))
  }

  /**
   * Gesture start: whatever the previous state, drawing starts with a box of
   * size zero at the pointer, clamped into the canvas.
   */
  function StartState(W: nat, H: nat, p: Point): (r: Session)
    ensures r.drawing && r.box.Some? && Inv(W, H, r)
    ensures Anchor(r.box.value) == Tip(r.box.value)
    ensures Anchor(r.box.value) == Point(Clamp(p.x, W), Clamp(p.y, H))
    ensures 0 <= p.x <= W && 0 <= p.y <= H ==> r.box == Some(Box(p.x, p.y, 0, 0))
  {
    Session(true, Some(Box(Clamp(p.x, W), Clamp(p.y, H), 0, 0)))
  }

  /**
   * Gesture move: ignored unless drawing; otherwise the anchor stays and the
   * tip follows the pointer, clamped into the canvas.
   */
  function MoveState(W: nat, H: nat, s: Session, p: Point): (r: Session)
    requires WellFormed(s)
    ensures WellFormed(r) && r.drawing == s.drawing
    ensures !s.drawing ==> r == s
    ensures s.drawing ==> r.box.Some? && Anchor(r.box.value) == Anchor(s.box.value)
    ensures s.drawing ==> Tip(r.box.value) == Point(Clamp(p.x, W), Clamp(p.y, H))
    ensures Inv(W, H, s) ==> Inv(W, H, r)
  {
    if !s.drawing then s
    else
      var Box(x, y, _, _) := s.box.value;
      Session(true, Some(Box(x, y, Clamp(p.x, W) - x, Clamp(p.y, H) - y)))
  }

  /**
   * Gesture end: drawing stops, the box is cleared, and the tracker is seeded
   * with the canonical form of the box (the empty box when there was none).
   */
  function Finish(W: nat, H: nat, s: Session): (r: Finished)
    ensures r.after == Idle
    ensures IsCanonical(r.seed)
    ensures s.box.None? ==> r.seed == Empty
    ensures s.box.Some? ==> SameExtent(r.seed, s.box.value)
    ensures Inv(W, H, s) ==> InCanvas(r.seed, W, H)
  {
    Finished(Idle, Normalize(s.box))
  }

  /** The state after the moves of `path`, in order. */
  function Drag(W: nat, H: nat, s: Session, path: seq<Point>): (r: Session)
    requires WellFormed(s)
    decreases |path|
  {
    if |path| == 0 then s else Drag(W, H, MoveState(W, H, s, path[0]), path[1..])
  }

  /** A whole gesture: start at `p`, move along `path`, end. */
  function Gesture(W: nat, H: nat, p: Point, path: seq<Point>): Finished {
    Finish(W, H, Drag(W, H, StartState(W, H, p), path))
  }

  /** Moves while not drawing change nothing. */
  lemma {:induction false} DragWhileIdle(W: nat, H: nat, s: Session, path: seq<Point>)
    requires WellFormed(s) && !s.drawing
    ensures Drag(W, H, s, path) == s
    decreases |path|
  {
    if |path| > 0 { DragWhileIdle(W, H, MoveState(W, H, s, path[0]), path[1..]); }
  }

  /** The anchor does not change over any number of moves of one gesture. */
  lemma {:induction false} DragKeepsAnchor(W: nat, H: nat, s: Session, path: seq<Point>)
    requires s.drawing && s.box.Some?
    ensures Drag(W, H, s, path).drawing && Drag(W, H, s, path).box.Some?
    ensures Anchor(Drag(W, H, s, path).box.value) == Anchor(s.box.value)
    decreases |path|
  {
    if |path| > 0 { DragKeepsAnchor(W, H, MoveState(W, H, s, path[0]), path[1..]); }
  }

  /** After a non-empty drag the tip is at the last pointer position, clamped. */
  lemma {:induction false} DragTipAtLastPointer(W: nat, H: nat, s: Session, path: seq<Point>)
    requires s.drawing && s.box.Some? && |path| > 0
    ensures Drag(W, H, s, path).box.Some?
    ensures Tip(Drag(W, H, s, path).box.value)
         == Point(Clamp(path[|path| - 1].x, W), Clamp(path[|path| - 1].y, H))
    decreases |path|
  {
    var s' := MoveState(W, H, s, path[0]);
    if |path| > 1 {
      DragTipAtLastPointer(W, H, s', path[1..]);
    }
  }

  /** Every sequence of moves keeps the box's corners inside the canvas. */
  lemma {:induction false} DragKeepsInv(W: nat, H: nat, s: Session, path: seq<Point>)
    requires Inv(W, H, s)
    ensures Inv(W, H, Drag(W, H, s, path))
    decreases |path|
  {
    if |path| > 0 { DragKeepsInv(W, H, MoveState(W, H, s, path[0]), path[1..]); }
  }

  /** Every gesture seeds the tracker with a canonical box inside the canvas. */
  lemma GestureSeedInCanvas(W: nat, H: nat, p: Point, path: seq<Point>)
    ensures Gesture(W, H, p, path).after == Idle
    ensures IsCanonical(Gesture(W, H, p, path).seed)
    ensures InCanvas(Gesture(W, H, p, path).seed, W, H)
  {
    DragKeepsInv(W, H, StartState(W, H, p), path);
  }

  /**
   * The seed of a gesture is the canonical box spanned by the clamped start
   * position and the clamped last position; it depends on no other move.
   */
  lemma GestureSeedSpansEnds(W: nat, H: nat, p: Point, path: seq<Point>)
    requires |path| > 0
    ensures Gesture(W, H, p, path).seed
         == Normalize(Some(Spanning(Point(Clamp(p.x, W), Clamp(p.y, H)),
                                    Point(Clamp(path[|path| - 1].x, W), Clamp(path[|path| - 1].y, H)))))
  {
    var s := StartState(W, H, p);
    DragKeepsAnchor(W, H, s, path);
    DragTipAtLastPointer(W, H, s, path);
    var b := Drag(W, H, s, path).box.value;
    assert b == Spanning(Anchor(b), Tip(b));
  }

  /** Dragging from `p` to `q` seeds the tracker exactly as dragging from `q` to `p`. */
  lemma GestureDirectionIndependent(W: nat, H: nat, p: Point, q: Point)
    ensures Gesture(W, H, p, [q]).seed == Gesture(W, H, q, [p]).seed
  {
    GestureSeedSpansEnds(W, H, p, [q]);
    GestureSeedSpansEnds(W, H, q, [p]);
    var a, t := Point(Clamp(p.x, W), Clamp(p.y, H)), Point(Clamp(q.x, W), Clamp(q.y, H));
    NormalizeDirectionIndependent(a.x, a.y, t.x - a.x, t.y - a.y);
  }

  /** A 1280 x 720 canvas: forward drag from (100,100) to (300,400). */
  lemma ForwardDragScenario()
    ensures StartState(1280, 720, Point(100, 100)) == Session(true, Some(Box(100, 100, 0, 0)))
    ensures Drag(1280, 720, StartState(1280, 720, Point(100, 100)), [Point(300, 400)])
         == Session(true, Some(Box(100, 100, 200, 300)))
    ensures Gesture(1280, 720, Point(100, 100), [Point(300, 400)]).seed == Box(100, 100, 200, 300)
  {
  }

  /** The same rectangle drawn backwards, from (300,400) to (100,100). */
  lemma BackwardDragScenario()
    ensures Drag(1280, 720, StartState(1280, 720, Point(300, 400)), [Point(100, 100)])
         == Session(true, Some(Box(300, 400, -200, -300)))
    ensures Gesture(1280, 720, Point(300, 400), [Point(100, 100)]).seed == Box(100, 100, 200, 300)
  {
  }

  /**
   * The component's drawing state. `W` and `H` are the canvas size; `drawing`
   * and `box` are the two pieces of React state the handlers set.
   */
  class Controller {
    const W: nat
    const H: nat
    var drawing: bool
    var box: Option<Box>

    function State(): Session
      reads this
    {
      Session(drawing, box)
    }

    ghost predicate Valid()
      reads this
    {
      Inv(W, H, State())
    }

    /** The initial state: not drawing, no box. */
    constructor (width: nat, height: nat)
      ensures W == width && H == height
      ensures State() == Idle && Valid()
    {
      W, H := width, height;
      drawing, box := false, None;
    }

    /** `handleMouseDown`, for a pointer at canvas-local `(px, py)`. */
    method Start(px: int, py: int)
      modifies this
      ensures State() == StartState(W, H, Point(px, py))
      ensures Valid()
    {
      drawing := true;
      box := Some(Box(Min(W, Max(0, px)), Min(H, Max(0, py)), 0, 0));
    }

    /** `handleMouseMove`, for a pointer at canvas-local `(px, py)`. */
    method Move(px: int, py: int)
      requires WellFormed(State())
      modifies this
      ensures State() == MoveState(W, H, old(State()), Point(px, py))
      ensures old(Valid()) ==> Valid()
    {
      if !drawing {
        return;
      }
      var mX := Min(W, Max(0, px));
      var mY := Min(H, Max(0, py));
      var Box(x, y, _, _) := box.value;
      box := Some(Box(x, y, mX - x, mY - y));
    }

    /**
     * `handleMouseUp` together with the seek-completion callback it installs:
     * returns the box the tracker is initialised with.
     */
    method End() returns (seed: Box)
      modifies this
      ensures Finished(State(), seed) == Finish(W, H, old(State()))
      ensures old(Valid()) ==> InCanvas(seed, W, H)
    {
      drawing := false;
      seed := Normalize(box);
      box := None;
    }
  }
}
