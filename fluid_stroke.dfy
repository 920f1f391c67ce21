/** A stroke: one emitter of fluid disturbance, in normalised 0..1 screen coordinates
    (src/FluidStroke.js). Its state is a value, `StrokeState`, with one specification function
    per operation; the class `FluidStroke` holds the same fields and updates them in place,
    each method proved to produce the function's result. */
module FluidStrokes {
  import opened Js

  /** Interpolation rate a stroke gets when none (or zero) is passed. */
  const DefaultSpeed: real := 0.07

  datatype StrokeState = StrokeState(
    start: Vec2, target: Vec2, pos: Vec2, last: Vec2, delta: Vec2,
    speed: real, isMove: bool, isDown: bool)

  /** `m` lies on the closed segment between `a` and `b`. */
  predicate Between(a: real, m: real, b: real) {
    (a <= m <= b) || (b <= m <= a)
  }

  function Pow(b: real, n: nat): real {
    if n == 0 then 1.0 else b * Pow(b, n - 1)
  }

  /** `1 - x`, the reflection about the line x = 0.5 */
  function FlipX(v: Vec2): Vec2 {
    Vec2(1.0 - v.x, v.y)
  }

  /** `1 - y`, the reflection about the line y = 0.5 */
  function FlipY(v: Vec2): Vec2 {
    Vec2(v.x, 1.0 - v.y)
  }

  /** The stroke `new FluidStroke(x, y, speed)` builds. */
  function Created(x: real, y: real, speed: Option<real>): StrokeState {
    var p := Vec2(x, y);
    StrokeState(p, p, p, p, Origin, OrDefault(speed, DefaultSpeed), false, false)
  }

  /** `update()`: `pos` moves the fraction `speed` of the way to `target`. For a speed in
      [0, 1] each coordinate lands between where it was and the target, so it neither moves
      away from the target nor overshoots it. */
  function Advanced(s: StrokeState): (r: StrokeState)
    ensures r == s.(pos := r.pos)
    ensures 0.0 <= s.speed <= 1.0 ==>
      Between(s.pos.x, r.pos.x, s.target.x) && Between(s.pos.y, r.pos.y, s.target.y)
    ensures r.pos.x - s.target.x == (1.0 - s.speed) * (s.pos.x - s.target.x)
    ensures r.pos.y - s.target.y == (1.0 - s.speed) * (s.pos.y - s.target.y)
  {
    var r := s.(pos := Lerp(s.pos, s.target, s.speed));
    LerpBetween(s.pos.x, s.target.x, s.speed);
    LerpBetween(s.pos.y, s.target.y, s.speed);
    r
  }

  lemma LerpBetween(a: real, b: real, t: real)
    ensures a + (b - a) * t - b == (1.0 - t) * (a - b)
    ensures 0.0 <= t <= 1.0 ==> Between(a, a + (b - a) * t, b)
  {
    var w := b - a;
    if 0.0 <= t <= 1.0 {
      if w >= 0.0 {
        assert w - w * t == w * (1.0 - t);
        assert w * (1.0 - t) >= 0.0;
      } else {
        assert (-w) - (-w) * t == (-w) * (1.0 - t);
        assert (-w) * (1.0 - t) >= 0.0;
      }
    }
  }

  /** `n` calls of `update()`. */
  function AdvancedN(s: StrokeState, n: nat): StrokeState {
    if n == 0 then s else Advanced(AdvancedN(s, n - 1))
  }

  /** One coordinate of `pos` after `n` calls of `update()`. */
  function ApproachN(p: real, t: real, speed: real, n: nat): real {
    if n == 0 then p else
      var q := ApproachN(p, t, speed, n - 1);
      q + (t - q) * speed
  }

  /** `update()` never touches anything but `pos`, however often it runs, and moves each
      coordinate of `pos` independently of the other. */
  lemma {:induction false} AdvanceByCoordinate(s: StrokeState, n: nat)
    ensures AdvancedN(s, n) == s.(pos := AdvancedN(s, n).pos)
    ensures AdvancedN(s, n).pos.x == ApproachN(s.pos.x, s.target.x, s.speed, n)
    ensures AdvancedN(s, n).pos.y == ApproachN(s.pos.y, s.target.y, s.speed, n)
  {
    if n > 0 {
      AdvanceByCoordinate(s, n - 1);
    }
  }

  /** One step towards `t` multiplies the gap by `1 - speed`. */
  lemma StepGap(q: real, t: real, speed: real)
    ensures q + (t - q) * speed - t == (1.0 - speed) * (q - t)
  {
  }

  lemma Regroup(b: real, c: real, x: real)
    ensures b * (c * x) == (b * c) * x
  {
  }

  /** The gap to the target after `n` steps is `(1 - speed)^n` times the starting gap. */
  lemma {:induction false} ApproachGap(p: real, t: real, speed: real, n: nat)
    ensures ApproachN(p, t, speed, n) - t == Pow(1.0 - speed, n) * (p - t)
  {
    if n > 0 {
      ApproachGap(p, t, speed, n - 1);
      var q := ApproachN(p, t, speed, n - 1);
      StepGap(q, t, speed);
      Regroup(1.0 - speed, Pow(1.0 - speed, n - 1), p - t);
    }
  }

  /** Repeated `update()` shrinks the gap to the target geometrically: after `n` steps it is
      `(1 - speed)^n` times the starting gap, on each axis. */
  lemma AdvanceGap(s: StrokeState, n: nat)
    ensures AdvancedN(s, n).pos.x - s.target.x == Pow(1.0 - s.speed, n) * (s.pos.x - s.target.x)
    ensures AdvancedN(s, n).pos.y - s.target.y == Pow(1.0 - s.speed, n) * (s.pos.y - s.target.y)
  {
    AdvanceByCoordinate(s, n);
    ApproachGap(s.pos.x, s.target.x, s.speed, n);
    ApproachGap(s.pos.y, s.target.y, s.speed, n);
  }

  /** For a speed in [0, 1], no number of `update()` calls carries `pos` past the target: every
      coordinate stays between its starting value and the target's. */
  lemma {:induction false} AdvanceNeverOvershoots(s: StrokeState, n: nat)
    requires 0.0 <= s.speed <= 1.0
    ensures Between(s.pos.x, AdvancedN(s, n).pos.x, s.target.x)
    ensures Between(s.pos.y, AdvancedN(s, n).pos.y, s.target.y)
  {
    if n > 0 {
      AdvanceNeverOvershoots(s, n - 1);
      AdvanceByCoordinate(s, n - 1);
    }
  }

  /** `mirrorX()` */
  function MirroredX(s: StrokeState): StrokeState {
    s.(start := FlipX(s.start), target := FlipX(s.target), pos := FlipX(s.pos), last := FlipX(s.last))
  }

  /** `mirrorY()` */
  function MirroredY(s: StrokeState): StrokeState {
    s.(start := FlipY(s.start), target := FlipY(s.target), pos := FlipY(s.pos), last := FlipY(s.last))
  }

  /** `mirror()`: both reflections at once */
  function Mirrored(s: StrokeState): StrokeState {
    var f := (v: Vec2) => Vec2(1.0 - v.x, 1.0 - v.y);
    s.(start := f(s.start), target := f(s.target), pos := f(s.pos), last := f(s.last))
  }

  /** Each reflection undoes itself, and none touches `delta`, `speed` or the flags. */
  lemma MirrorsAreInvolutions(s: StrokeState)
    ensures MirroredX(MirroredX(s)) == s
    ensures MirroredY(MirroredY(s)) == s
    ensures Mirrored(Mirrored(s)) == s
    ensures MirroredX(s).delta == MirroredY(s).delta == Mirrored(s).delta == s.delta
    ensures MirroredX(s).speed == MirroredY(s).speed == Mirrored(s).speed == s.speed
    ensures MirroredX(s).isDown == MirroredY(s).isDown == Mirrored(s).isDown == s.isDown
    ensures MirroredX(s).isMove == MirroredY(s).isMove == Mirrored(s).isMove == s.isMove
  {
  }

  /** `mirror()` is `mirrorX()` followed by `mirrorY()`, in either order. */
  lemma MirrorIsBothReflections(s: StrokeState)
    ensures Mirrored(s) == MirroredY(MirroredX(s)) == MirroredX(MirroredY(s))
  {
  }

  /** `reset()`: `pos` and then `last` are copied from `start`. */
  function ResetState(s: StrokeState): StrokeState {
    s.(pos := s.start, last := s.start)
  }

  /** A reset stroke sits at its start with no pending motion, keeps its start and target,
      and resetting it again changes nothing. */
  lemma ResetProperties(s: StrokeState)
    ensures ResetState(s).pos == ResetState(s).last == s.start
    ensures ResetState(s).start == s.start && ResetState(s).target == s.target
    ensures ResetState(ResetState(s)) == ResetState(s)
  {
  }

  /** `clone()`: a new stroke built from `start` and `speed`, then given the original's
      target, position, last position and flags. */
  function Cloned(s: StrokeState): StrokeState {
    Created(s.start.x, s.start.y, Some(s.speed))
      .(target := s.target, pos := s.pos, last := s.last, isMove := s.isMove, isDown := s.isDown)
  }

  /** A clone agrees with its original on every vector but `delta`, which starts at zero, and
      on the flags; the speed is copied unless it was zero, which the constructor's `||`
      replaces by the default. */
  lemma CloneProperties(s: StrokeState)
    ensures Cloned(s) == s.(delta := Origin, speed := Cloned(s).speed)
    ensures Cloned(s).speed == if s.speed == 0.0 then DefaultSpeed else s.speed
  {
  }

  class FluidStroke {
    var isMove: bool
    var isDown: bool
    var delta: Vec2
    var start: Vec2
    var target: Vec2
    var pos: Vec2
    var last: Vec2
    var speed: real

    function State(): StrokeState
      reads this
    {
      StrokeState(start, target, pos, last, delta, speed, isMove, isDown)
    }

    /** `speed || 0.07`: a stroke never starts with speed zero. */
    constructor (x: real, y: real, speed: Option<real>)
      ensures State() == Created(x, y, speed)
      ensures start == target == pos == last == Vec2(x, y)
      ensures !isMove && !isDown && delta == Origin
      ensures this.speed != 0.0 && (speed.Some? && speed.value != 0.0 ==> this.speed == speed.value)
    {
      var p := Vec2(x, y);
      isMove := false;
      isDown := false;
      delta := Origin;
      start := p;
      target := p;
      pos := p;
      last := p;
      this.speed := OrDefault(speed, DefaultSpeed);
    }

    method Update()
      modifies this
      ensures State() == Advanced(old(State()))
    {
      pos := Lerp(pos, target, speed);
    }

    method MirrorX() returns (self: FluidStroke)
      modifies this
      ensures self == this && State() == MirroredX(old(State()))
    {
      start := FlipX(start);
      target := FlipX(target);
      pos := FlipX(pos);
      last := FlipX(last);
      self := this;
    }

    method MirrorY() returns (self: FluidStroke)
      modifies this
      ensures self == this && State() == MirroredY(old(State()))
    {
      start := FlipY(start);
      target := FlipY(target);
      pos := FlipY(pos);
      last := FlipY(last);
      self := this;
    }

    method Mirror() returns (self: FluidStroke)
      modifies this
      ensures self == this && State() == Mirrored(old(State()))
    {
      start := Vec2(1.0 - start.x, 1.0 - start.y);
      target := Vec2(1.0 - target.x, 1.0 - target.y);
      pos := Vec2(1.0 - pos.x, 1.0 - pos.y);
      last := Vec2(1.0 - last.x, 1.0 - last.y);
      self := this;
    }

    method Reset()
      modifies this
      ensures State() == ResetState(old(State()))
    {
      pos := start;
      last := pos;
    }

    /** A fresh object: later changes to the clone cannot reach the original. */
    method Clone() returns (c: FluidStroke)
      ensures fresh(c) && c.State() == Cloned(State())
    {
      c := new FluidStroke(start.x, start.y, Some(speed));
      c.target := target;
      c.pos := pos;
      c.last := last;
      c.isMove := isMove;
      c.isDown := isDown;
    }
  }

  /** The states of a list of strokes. */
  ghost function States(ss: seq<FluidStroke>): (r: seq<StrokeState>)
    reads set s | s in ss
    ensures |r| == |ss| && forall j :: 0 <= j < |ss| ==> r[j] == ss[j].State()
  {
    seq(|ss|, j requires 0 <= j < |ss| reads set s | s in ss => ss[j].State())
  }
}
