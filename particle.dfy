/** One moving point of the constellation: its state, the per-frame step
    (bounce, pointer repulsion, translation) and its rendering. */
module ParticleEntity {
  import opened Wrappers
  import opened ParticleMath
  import opened Surface

  /** The part of a particle that `update` reads and writes, as a value. */
  datatype ParticleState = ParticleState(
    x: real, y: real,
    directionX: real, directionY: real,
    size: real,
    color: string)

  /** The particle's bounding circle: centre at its position, radius its size. */
  function CircleOf(s: ParticleState): Circle {
    Circle(s.x, s.y, s.size)
  }

  /** What drawing the particle records: a filled circle of its size and colour. */
  function ArcOf(s: ParticleState): DrawEvent {
    Arc(Point(s.x, s.y), s.size, s.color)
  }

  /** Velocity on one axis after the boundary check: reflected when the position
      is already outside [0, bound], unchanged otherwise. */
  function Bounce(pos: real, dir: real, bound: real): real {
    if pos > bound || pos < 0.0 then -dir else dir
  }

  /** Position on one axis after the pointer push: first a step of 10 away from
      a pointer on the low side, guarded by the upper margin; then a step of 10
      away from a pointer on the high side, guarded by the lower margin and
      judged on the position the first check left. */
  function Repel(pos: real, pointer: real, bound: real, size: real): real {
    var pushed := if pointer < pos && pos < bound - size * 10.0 then pos + 10.0 else pos;
    if pointer > pushed && pushed > size * 10.0 then pushed - 10.0 else pushed
  }

  /** Whether the pointer's circle overlaps the particle's circle. */
  predicate Hit(s: ParticleState, pointer: Option<Circle>) {
    pointer.Some? && CircleCollision(pointer.value, CircleOf(s))
  }

  /** The state after one `update` on a surface of the given size: each axis
      bounces, is pushed when the pointer overlaps the particle, and moves by
      its (possibly reflected) velocity. Size and colour never change. */
  function Step(s: ParticleState, pointer: Option<Circle>, width: real, height: real): (t: ParticleState)
    ensures t.size == s.size && t.color == s.color
  {
    var dx := Bounce(s.x, s.directionX, width);
    var dy := Bounce(s.y, s.directionY, height);
    var x := if Hit(s, pointer) then Repel(s.x, pointer.value.x, width, s.size) else s.x;
    var y := if Hit(s, pointer) then Repel(s.y, pointer.value.y, height, s.size) else s.y;
    ParticleState(x + dx, y + dy, dx, dy, s.size, s.color)
  }

  /** The velocity on an axis is reflected exactly when the position before the
      step lies outside the surface on that axis; inside, it is kept. */
  lemma StepReflectsOutsideBounds(s: ParticleState, pointer: Option<Circle>, width: real, height: real)
    ensures var t := Step(s, pointer, width, height);
      && ((s.x > width || s.x < 0.0) ==> t.directionX == -s.directionX)
      && (0.0 <= s.x <= width ==> t.directionX == s.directionX)
      && ((s.y > height || s.y < 0.0) ==> t.directionY == -s.directionY)
      && (0.0 <= s.y <= height ==> t.directionY == s.directionY)
  {
  }

  /** Without an overlapping pointer the particle just moves by its velocity
      after the bounce; nothing clamps it back inside the surface. */
  lemma StepWithoutPointerTranslates(s: ParticleState, pointer: Option<Circle>, width: real, height: real)
    requires !Hit(s, pointer)
    ensures var t := Step(s, pointer, width, height);
      t.x == s.x + t.directionX && t.y == s.y + t.directionY
  {
  }

  /** The push on one axis is +10, -10 or nothing. +10 happens exactly when the
      pointer is on the low side and the position is below the upper margin,
      -10 exactly when the pointer is on the high side and the position is
      above the lower margin; a pointer level with the particle pushes nothing. */
  lemma {:induction false} RepelOutcome(pos: real, pointer: real, bound: real, size: real)
    ensures var r := Repel(pos, pointer, bound, size);
      && (r == pos + 10.0 <==> pointer < pos && pos < bound - size * 10.0)
      && (r == pos - 10.0 <==> pointer > pos && pos > size * 10.0)
      && (r == pos || r == pos + 10.0 || r == pos - 10.0)
      && (pointer == pos ==> r == pos)
  {
  }

  /** The margin is checked before the push, so a pushed position may pass the
      margin, but by less than the step of 10. */
  lemma RepelMargin(pos: real, pointer: real, bound: real, size: real)
    ensures var r := Repel(pos, pointer, bound, size);
      && (r > pos ==> r < bound - size * 10.0 + 10.0)
      && (r < pos ==> r > size * 10.0 - 10.0)
  {
  }

  /** The margin is not an invariant of the push: on a surface 100 wide, a
      particle of size 1 at 89.5 with the pointer to its left ends at 99.5,
      beyond the margin 90. */
  lemma RepelCanPassMargin()
    ensures Repel(89.5, 80.0, 100.0, 1.0) == 99.5 > 100.0 - 1.0 * 10.0
  {
  }

  /** With an overlapping pointer, each axis is pushed by its own guarded rule,
      judged on that axis alone, and then translated. */
  lemma StepRepelsEachAxis(s: ParticleState, c: Circle, width: real, height: real)
    requires CircleCollision(c, CircleOf(s))
    ensures var t := Step(s, Some(c), width, height);
      && (t.x - t.directionX == s.x + 10.0 <==> c.x < s.x && s.x < width - s.size * 10.0)
      && (t.x - t.directionX == s.x - 10.0 <==> c.x > s.x && s.x > s.size * 10.0)
      && (t.y - t.directionY == s.y + 10.0 <==> c.y < s.y && s.y < height - s.size * 10.0)
      && (t.y - t.directionY == s.y - 10.0 <==> c.y > s.y && s.y > s.size * 10.0)
  {
    RepelOutcome(s.x, c.x, width, s.size);
    RepelOutcome(s.y, c.y, height, s.size);
  }

  /** A particle object. It shares the canvas (whose size it reads on every
      update) and the 2D context (which it draws on) with the whole field. */
  class Particle {
    var x: real
    var y: real
    var directionX: real
    var directionY: real
    var size: real
    var color: string
    const canvas: Canvas
    const ctx: Context

    constructor (x: real, y: real, directionX: real, directionY: real,
                 size: real, color: string, canvas: Canvas, ctx: Context)
      ensures State() == ParticleState(x, y, directionX, directionY, size, color)
      ensures this.canvas == canvas && this.ctx == ctx
    {
      this.x, this.y := x, y;
      this.directionX, this.directionY := directionX, directionY;
      this.size, this.color := size, color;
      this.canvas, this.ctx := canvas, ctx;
    }

    function State(): ParticleState
      reads this
    {
      ParticleState(x, y, directionX, directionY, size, color)
    }

    /** The `circle` getter: the current position with the size as radius. */
    function AsCircle(): (c: Circle)
      reads this
      ensures c.x == x && c.y == y && c.radius == size
    {
      Circle(x, y, size)
    }

    /** Draws the particle at its current position. */
    method Draw()
      modifies ctx
      ensures ctx.trace == old(ctx.trace) + [ArcOf(State())]
    {
      ctx.FillArc(Point(x, y), size, color);
    }

    /** The boundary check of `update`: reflect the velocity on each axis whose
        position is outside the canvas. */
    method BounceOffEdges()
      modifies this
      ensures directionX == Bounce(x, old(directionX), canvas.width as real)
      ensures directionY == Bounce(y, old(directionY), canvas.height as real)
      ensures x == old(x) && y == old(y) && size == old(size) && color == old(color)
    {
      if x > canvas.width as real || x < 0.0 {
        directionX := -directionX;
      }
      if y > canvas.height as real || y < 0.0 {
        directionY := -directionY;
      }
    }

    /** The repulsion of `update`: the guarded steps of 10 away from the pointer,
        x first, then y. */
    method PushAwayFrom(m: Circle)
      modifies this
      ensures x == Repel(old(x), m.x, canvas.width as real, size)
      ensures y == Repel(old(y), m.y, canvas.height as real, size)
      ensures directionX == old(directionX) && directionY == old(directionY)
      ensures size == old(size) && color == old(color)
    {
      if m.x < x && x < canvas.width as real - size * 10.0 {
        x := x + 10.0;
      }
      if m.x > x && x > size * 10.0 {
        x := x - 10.0;
      }

      if m.y < y && y < canvas.height as real - size * 10.0 {
        y := y + 10.0;
      }
      if m.y > y && y > size * 10.0 {
        y := y - 10.0;
      }
    }

    /** One frame: bounce, pointer repulsion, translation, then one draw at the
        final position. The canvas size is read as it is at the call. */
    method Update(mouse: Option<Circle>)
      modifies this, ctx
      ensures State() == Step(old(State()), mouse, canvas.width as real, canvas.height as real)
      ensures ctx.trace == old(ctx.trace) + [ArcOf(State())]
    {
      ghost var s := State();
      BounceOffEdges();
      if mouse.Some? && CircleCollision(mouse.value, AsCircle()) {
        PushAwayFrom(mouse.value);
      }
      x := x + directionX;
      y := y + directionY;
      assert State() == Step(s, mouse, canvas.width as real, canvas.height as real);
      Draw();
    }
  }
}
