/** A pointer of the controller (src/FluidPointer.js): the same points as a stroke, in pixel
    coordinates, but no speed of its own and no `update`. A `speed` property appears only when
    the controller's `setPointer` assigns one. */
module FluidPointers {
  import opened Js

  datatype PointerState = PointerState(
    start: Vec2, target: Vec2, pos: Vec2, last: Vec2, delta: Vec2,
    speed: Option<real>, isMove: bool, isDown: bool)

  /** The pointer `new FluidPointer(x, y)` builds: every point at (x, y), no motion, no
      speed property. */
  function PointerCreated(x: real, y: real): (s: PointerState)
    ensures s.start == s.target == s.pos == s.last == Vec2(x, y)
    ensures s.delta == Origin && !s.isMove && !s.isDown && s.speed.None?
  {
    var p := Vec2(x, y);
    PointerState(p, p, p, p, Origin, None, false, false)
  }

  /** `reset()`: `pos` and then `last` are copied from `start`. */
  function PointerReset(s: PointerState): PointerState {
    s.(pos := s.start, last := s.start)
  }

  /** A reset pointer sits at its start, keeps its start and target, and a second reset
      changes nothing. */
  lemma PointerResetProperties(s: PointerState)
    ensures PointerReset(s).pos == PointerReset(s).last == s.start
    ensures PointerReset(s) == s.(pos := s.start, last := s.start)
    ensures PointerReset(PointerReset(s)) == PointerReset(s)
  {
  }

  class FluidPointer {
    var isMove: bool
    var isDown: bool
    var delta: Vec2
    var start: Vec2
    var target: Vec2
    var pos: Vec2
    var last: Vec2
    var speed: Option<real>

    function State(): PointerState
      reads this
    {
      PointerState(start, target, pos, last, delta, speed, isMove, isDown)
    }

    /** The constructor takes only the position: a speed passed as a third argument is
        dropped by the call and so is not a parameter here. */
    constructor (x: real, y: real)
      ensures State() == PointerCreated(x, y)
    {
      isMove := false;
      isDown := false;
      delta := Origin;
      start := Vec2(x, y);
      target := start;
      pos := target;
      last := pos;
      speed := None;
    }

    method Reset()
      modifies this
      ensures State() == PointerReset(old(State()))
    {
      pos := start;
      last := pos;
    }
  }
}
