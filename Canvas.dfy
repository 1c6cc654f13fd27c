/** The 2D drawing context the renderer paints on, as an abstract surface.
    Every attribute assignment and every primitive call is recorded, in order,
    in a trace; the canvas dimensions are plain fields of the surface. */
module Canvas {

  /** A coordinate pair, as the renderables' `{x, y}` objects. */
  datatype Point = Point(x: int, y: int)

  /** An opaque reference to a decoded bitmap owned by the host. */
  datatype ImageHandle = ImageHandle(id: nat)

  /** The operations a 2D context receives from the renderer. */
  datatype Op =
    | SetFillStyle(style: string)
    | SetFont(font: string)
    | FillRect(x: int, y: int, w: int, h: int)
    | FillText(text: string, x: int, y: int)
    | DrawImage(image: ImageHandle, x: int, y: int, w: int, h: int)
  {
    /** True of the calls that actually put pixels on the canvas. */
    predicate IsPrimitive() {
      FillRect? || FillText? || DrawImage?
    }

    /** True of the attribute assignments (`fillStyle`, `font`). */
    predicate IsStyle() {
      SetFillStyle? || SetFont?
    }
  }

  /** Everything observable about a surface at one instant. */
  datatype CanvasState = CanvasState(width: nat, height: nat, fillStyle: string, font: string, trace: seq<Op>)

  /** The effect of one operation: it is appended to the trace, and an
      attribute assignment also changes the current attribute. */
  function Step(s: CanvasState, op: Op): CanvasState {
    match op
    case SetFillStyle(style) => s.(fillStyle := style, trace := s.trace + [op])
    case SetFont(font) => s.(font := font, trace := s.trace + [op])
    case _ => s.(trace := s.trace + [op])
  }

  /** The effect of a sequence of operations issued one after another. */
  function Run(s: CanvasState, ops: seq<Op>): (r: CanvasState)
    ensures r.trace == s.trace + ops
    ensures r.width == s.width && r.height == s.height
    decreases |ops|
  {
    if ops == [] then s else Run(Step(s, ops[0]), ops[1..])
  }

  /** Issuing one operation is taking one step. */
  lemma RunOne(s: CanvasState, op: Op)
    ensures Run(s, [op]) == Step(s, op)
  {
    assert [op][1..] == [];
  }

  /** Issuing two operations is taking two steps. */
  lemma RunTwo(s: CanvasState, a: Op, b: Op)
    ensures Run(s, [a, b]) == Step(Step(s, a), b)
  {
    RunCons(s, a, [b]);
    RunOne(Step(s, a), b);
    assert [a] + [b] == [a, b];
  }

  /** Issuing three operations is taking three steps. */
  lemma RunThree(s: CanvasState, a: Op, b: Op, c: Op)
    ensures Run(s, [a, b, c]) == Step(Step(Step(s, a), b), c)
  {
    RunCons(s, a, [b, c]);
    RunTwo(Step(s, a), b, c);
    assert [a] + [b, c] == [a, b, c];
  }

  /** Issuing `op` before `rest` is stepping over `op`, then issuing `rest`. */
  lemma RunCons(s: CanvasState, op: Op, rest: seq<Op>)
    ensures Run(s, [op] + rest) == Run(Step(s, op), rest)
  {
    assert ([op] + rest)[0] == op;
    assert ([op] + rest)[1..] == rest;
  }

  /** Issuing `a` and then `b` is issuing `a + b`. */
  lemma {:induction false} RunAppend(s: CanvasState, a: seq<Op>, b: seq<Op>)
    ensures Run(s, a + b) == Run(Run(s, a), b)
    decreases |a|
  {
    if a == [] {
      assert a + b == b;
    } else {
      assert (a + b)[0] == a[0];
      assert (a + b)[1..] == a[1..] + b;
      RunAppend(Step(s, a[0]), a[1..], b);
    }
  }

  /** The context object: its `fillStyle` and `font` properties, the size of
      its canvas, and the trace of everything issued to it so far. */
  class Surface {
    var width: nat
    var height: nat
    var fillStyle: string
    var font: string
    var trace: seq<Op>

    function State(): CanvasState
      reads this
    {
      CanvasState(width, height, fillStyle, font, trace)
    }

    /** A fresh context on a canvas of the given size, nothing issued yet. */
    constructor (width: nat, height: nat, fillStyle: string, font: string)
      ensures State() == CanvasState(width, height, fillStyle, font, [])
    {
      this.width := width;
      this.height := height;
      this.fillStyle := fillStyle;
      this.font := font;
      this.trace := [];
    }

    /** `context.fillStyle = style` */
    method SetFillStyle(style: string)
      modifies this
      ensures State() == Step(old(State()), Op.SetFillStyle(style))
    {
      fillStyle := style;
      trace := trace + [Op.SetFillStyle(style)];
    }

    /** `context.font = font` */
    method SetFont(font: string)
      modifies this
      ensures State() == Step(old(State()), Op.SetFont(font))
    {
      this.font := font;
      trace := trace + [Op.SetFont(font)];
    }

    /** `context.fillRect(x, y, w, h)` */
    method FillRect(x: int, y: int, w: int, h: int)
      modifies this
      ensures State() == Step(old(State()), Op.FillRect(x, y, w, h))
    {
      trace := trace + [Op.FillRect(x, y, w, h)];
    }

    /** `context.fillText(text, x, y)` */
    method FillText(text: string, x: int, y: int)
      modifies this
      ensures State() == Step(old(State()), Op.FillText(text, x, y))
    {
      trace := trace + [Op.FillText(text, x, y)];
    }

    /** `context.drawImage(image, x, y, w, h)` */
    method DrawImage(image: ImageHandle, x: int, y: int, w: int, h: int)
      modifies this
      ensures State() == Step(old(State()), Op.DrawImage(image, x, y, w, h))
    {
      trace := trace + [Op.DrawImage(image, x, y, w, h)];
    }
  }
}
