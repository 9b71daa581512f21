/** The drawing surface the effect paints on. Pixels are not modelled: the
    2D context records each drawing call it receives as an event, so that
    what a frame draws can be stated. */
module Surface {
  import opened ParticleMath

  /** One drawing call on the 2D context. */
  datatype DrawEvent =
    /** The whole surface is cleared. */
    | ClearRect(width: nat, height: nat)
    /** A filled circle with a glow of the same colour (particle rendering). */
    | Arc(center: Point, radius: real, fill: string)
    /** A straight stroke of width 1 without glow (a connection). */
    | Line(from: Point, to: Point, stroke: string)

  /** The canvas element. Its backing size is a pair of integers. */
  class Canvas {
    var width: nat
    var height: nat

    /** A freshly created canvas element has the default size 300 by 150. */
    constructor ()
      ensures width == 300 && height == 150
    {
      width, height := 300, 150;
    }
  }

  /** The 2D rendering context, shared by the field and all its particles. */
  class Context {
    var trace: seq<DrawEvent>

    constructor ()
      ensures trace == []
    {
      trace := [];
    }

    method ClearRect(width: nat, height: nat)
      modifies this
      ensures trace == old(trace) + [DrawEvent.ClearRect(width, height)]
    {
      trace := trace + [DrawEvent.ClearRect(width, height)];
    }

    method FillArc(center: Point, radius: real, fill: string)
      modifies this
      ensures trace == old(trace) + [Arc(center, radius, fill)]
    {
      trace := trace + [Arc(center, radius, fill)];
    }

    method StrokeLine(from: Point, to: Point, stroke: string)
      modifies this
      ensures trace == old(trace) + [Line(from, to, stroke)]
    {
      trace := trace + [Line(from, to, stroke)];
    }
  }
}
