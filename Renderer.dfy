/** The renderer of `src/Core/Renderer.js`: a queue of renderables that is
    drained, item by item, into kind-specific calls on the 2D context. */
module Core {
  import opened Canvas

  /** One drawable descriptor, as seen through the getters the renderer
      calls: `getType`, `getColor`, `getFont`, `getOrigin`, `getEnd`,
      `getText` and `getImage`. The type is the raw string the renderer
      switches on, so any string, known or not, can be represented. */
  datatype Renderable = Renderable(
    kind: string,
    color: string,
    font: string,
    origin: Point,
    end: Point,
    text: string,
    image: ImageHandle)

  /** The cases of the renderer's `switch`, with a catch-all. */
  datatype Kind = TextureKind | TextKind | ColorKind | UnknownKind

  function KindOf(t: string): Kind {
    if t == "texture" then TextureKind
    else if t == "text" then TextKind
    else if t == "color" then ColorKind
    else UnknownKind
  }

  predicate IsKnown(item: Renderable) {
    KindOf(item.kind) != UnknownKind
  }

  /** What `drawItem` issues for one item: the dispatch on its type string.
      A recognised item issues its attribute assignments first and its one
      pixel-producing call last; any other item issues nothing. */
  function ItemOps(item: Renderable): (ops: seq<Op>)
    ensures ops != [] <==> IsKnown(item)
    ensures IsKnown(item) ==> ops[|ops| - 1] == PrimitiveOf(item)
    ensures forall i :: 0 <= i < |ops| - 1 ==> ops[i].IsStyle()
  {
    match KindOf(item.kind)
    case TextureKind => [DrawImage(item.image, item.origin.x, item.origin.y, item.end.x, item.end.y)]
    case TextKind => [SetFillStyle(item.color), SetFont(item.font), FillText(item.text, item.origin.x, item.origin.y)]
    case ColorKind => [SetFillStyle(item.color), FillRect(item.origin.x, item.origin.y, item.end.x, item.end.y)]
    case UnknownKind => []
  }

  /** What `draw` issues for a whole queue: each item's operations, in queue
      order. No item issues more than three operations, and a queue with no
      recognised item issues nothing. */
  function DrawOps(q: seq<Renderable>): (ops: seq<Op>)
    ensures |ops| <= 3 * |q|
    ensures (forall i :: 0 <= i < |q| ==> !IsKnown(q[i])) ==> ops == []
    decreases |q|
  {
    if q == [] then [] else ItemOps(q[0]) + DrawOps(q[1..])
  }

  /** The single pixel-producing call a known item gives rise to. */
  function PrimitiveOf(item: Renderable): Op
    requires IsKnown(item)
  {
    match KindOf(item.kind)
    case TextureKind => DrawImage(item.image, item.origin.x, item.origin.y, item.end.x, item.end.y)
    case TextKind => FillText(item.text, item.origin.x, item.origin.y)
    case ColorKind => FillRect(item.origin.x, item.origin.y, item.end.x, item.end.y)
  }

  /** The items of `q` whose type the dispatch recognises, in order. */
  function Known(q: seq<Renderable>): seq<Renderable>
    decreases |q|
  {
    if q == [] then [] else (if IsKnown(q[0]) then [q[0]] else []) + Known(q[1..])
  }

  /** The pixel-producing calls of a trace, in order. */
  function Primitives(ops: seq<Op>): seq<Op>
    decreases |ops|
  {
    if ops == [] then [] else (if ops[0].IsPrimitive() then [ops[0]] else []) + Primitives(ops[1..])
  }

  /** Draining `a + b` issues what draining `a` and then `b` issues. */
  lemma {:induction false} DrawOpsAppend(a: seq<Renderable>, b: seq<Renderable>)
    ensures DrawOps(a + b) == DrawOps(a) + DrawOps(b)
    decreases |a|
  {
    if a == [] {
      assert a + b == b;
    } else {
      assert (a + b)[0] == a[0];
      assert (a + b)[1..] == a[1..] + b;
      DrawOpsAppend(a[1..], b);
    }
  }

  lemma {:induction false} PrimitivesAppend(a: seq<Op>, b: seq<Op>)
    ensures Primitives(a + b) == Primitives(a) + Primitives(b)
    decreases |a|
  {
    if a == [] {
      assert a + b == b;
    } else {
      assert (a + b)[0] == a[0];
      assert (a + b)[1..] == a[1..] + b;
      PrimitivesAppend(a[1..], b);
    }
  }

  lemma PrimitivesCons(op: Op, rest: seq<Op>)
    ensures Primitives([op] + rest) == (if op.IsPrimitive() then [op] else []) + Primitives(rest)
  {
    assert ([op] + rest)[0] == op;
    assert ([op] + rest)[1..] == rest;
  }

  /** A known item issues exactly its own primitive call; an unknown one issues none. */
  lemma ItemPrimitives(item: Renderable)
    ensures Primitives(ItemOps(item)) == if IsKnown(item) then [PrimitiveOf(item)] else []
  {
    var ops := ItemOps(item);
    if IsKnown(item) {
      var p := PrimitiveOf(item);
      PrimitivesCons(p, []);
      assert [p] + [] == [p];
      if KindOf(item.kind) == TextKind {
        PrimitivesCons(ops[1], [p]);
        PrimitivesCons(ops[0], [ops[1], p]);
        assert [ops[1]] + [p] == [ops[1], p];
        assert [ops[0]] + [ops[1], p] == ops;
      } else if KindOf(item.kind) == ColorKind {
        PrimitivesCons(ops[0], [p]);
        assert [ops[0]] + [p] == ops;
      }
    }
  }

  /** Draining a queue makes exactly one pixel-producing call per recognised
      item, in insertion order: none is dropped, none is drawn twice. */
  lemma {:induction false} DrawnOncePerItemInOrder(q: seq<Renderable>)
    ensures |Primitives(DrawOps(q))| == |Known(q)|
    ensures forall i :: 0 <= i < |Known(q)| ==>
      IsKnown(Known(q)[i]) && Primitives(DrawOps(q))[i] == PrimitiveOf(Known(q)[i])
    decreases |q|
  {
    if q != [] {
      DrawnOncePerItemInOrder(q[1..]);
      PrimitivesAppend(ItemOps(q[0]), DrawOps(q[1..]));
      ItemPrimitives(q[0]);
    }
  }

  /** Items with an unrecognised type contribute nothing: draining the queue
      issues the same operations as draining only its recognised items. */
  lemma {:induction false} UnknownItemsAreSkipped(q: seq<Renderable>)
    ensures DrawOps(q) == DrawOps(Known(q))
    decreases |q|
  {
    if q != [] {
      UnknownItemsAreSkipped(q[1..]);
      if IsKnown(q[0]) {
        var k := [q[0]] + Known(q[1..]);
        assert k[0] == q[0] && k[1..] == Known(q[1..]);
      } else {
        assert ItemOps(q[0]) == [];
        assert Known(q) == [] + Known(q[1..]) == Known(q[1..]);
      }
    }
  }

  /** An item issues no operation at all exactly when its type is none of
      "color", "text" and "texture". */
  lemma UnknownKindIsNoOp(item: Renderable)
    ensures ItemOps(item) == [] <==> item.kind !in {"color", "text", "texture"}
  {
  }

  /** A "texture" item changes neither the fill style nor the font. */
  lemma TextureKeepsStyle(s: CanvasState, item: Renderable)
    requires item.kind == "texture"
    ensures Run(s, ItemOps(item)).fillStyle == s.fillStyle
    ensures Run(s, ItemOps(item)).font == s.font
  {
    RunOne(s, ItemOps(item)[0]);
  }

  /** A "color" item leaves the font alone and ends with the item's color as fill style. */
  lemma ColorSetsFillStyleOnly(s: CanvasState, item: Renderable)
    requires item.kind == "color"
    ensures Run(s, ItemOps(item)).font == s.font
    ensures Run(s, ItemOps(item)).fillStyle == item.color
  {
    var ops := ItemOps(item);
    RunTwo(s, ops[0], ops[1]);
  }

  /** A "text" item leaves the item's color and font as the context's
      attributes and does not depend on the item's end point. */
  lemma TextIgnoresEnd(s: CanvasState, item: Renderable, end: Point)
    requires item.kind == "text"
    ensures ItemOps(item.(end := end)) == ItemOps(item)
    ensures Run(s, ItemOps(item)).fillStyle == item.color
    ensures Run(s, ItemOps(item)).font == item.font
  {
    var ops := ItemOps(item);
    RunThree(s, ops[0], ops[1], ops[2]);
  }

  /** A drained queue issues nothing, so a second `draw` without an append
      in between leaves the surface exactly as it was. */
  lemma DrainedQueueDrawsNothing(s: CanvasState)
    ensures Run(s, DrawOps([])) == s
  {
  }

  class Renderer {
    /** The 2D context obtained from the canvas. */
    const context: Surface
    /** The renderables to be drawn on the next frame, in draw order. */
    var queue: seq<Renderable>

    /** Binds the renderer to a context; the queue starts empty. */
    constructor (context: Surface)
      ensures this.context == context && queue == []
    {
      this.context := context;
      queue := [];
    }

    /** `appendQueue(item)`: pushes one renderable onto the end of the queue. */
    method AppendQueue(item: Renderable)
      modifies this
      ensures queue == old(queue) + [item]
      ensures forall i :: 0 <= i < |old(queue)| ==> queue[i] == old(queue)[i]
      ensures unchanged(context)
    {
      queue := queue + [item];
    }

    /** `clearQueue()`: drops every pending renderable without drawing it. */
    method ClearQueue()
      modifies this
      ensures queue == []
      ensures unchanged(context)
    {
      queue := [];
    }

    /** `draw()`: draws every queued item in order, then empties the queue. */
    method Draw()
      modifies this, context
      ensures queue == []
      ensures context.State() == Run(old(context.State()), DrawOps(old(queue)))
      ensures context.width == old(context.width) && context.height == old(context.height)
    {
      var items := GetQueue();
      for i := 0 to |items|
        invariant queue == items
        invariant context.State() == Run(old(context.State()), DrawOps(items[..i]))
      {
        DrawItem(items[i]);
        assert items[..i + 1] == items[..i] + [items[i]];
        DrawOpsAppend(items[..i], [items[i]]);
        assert [items[i]][1..] == [];
        assert DrawOps([items[i]]) == ItemOps(items[i]) + DrawOps([]);
        assert ItemOps(items[i]) + [] == ItemOps(items[i]);
        RunAppend(old(context.State()), DrawOps(items[..i]), ItemOps(items[i]));
      }
      assert items[..|items|] == items;
      ClearQueue();
    }

    /** `drawItem(item)`: the `switch` on the item's type string; any other
        string falls through and issues nothing. */
    method DrawItem(item: Renderable)
      modifies context
      ensures context.State() == Run(old(context.State()), ItemOps(item))
    {
      if item.kind == "texture" {
        DrawItemTexture(item);
      } else if item.kind == "text" {
        DrawItemText(item);
      } else if item.kind == "color" {
        DrawItemColor(item);
      }
    }

    /** `drawItemColor(item)`: fill style, then one filled rectangle. */
    method DrawItemColor(item: Renderable)
      modifies context
      ensures context.State() == Run(old(context.State()),
        [SetFillStyle(item.color), FillRect(item.origin.x, item.origin.y, item.end.x, item.end.y)])
    {
      context.SetFillStyle(item.color);
      context.FillRect(item.origin.x, item.origin.y, item.end.x, item.end.y);
      RunTwo(old(context.State()), SetFillStyle(item.color), FillRect(item.origin.x, item.origin.y, item.end.x, item.end.y));
    }

    /** `drawItemText(item)`: fill style, font, then one text fill at the origin. */
    method DrawItemText(item: Renderable)
      modifies context
      ensures context.State() == Run(old(context.State()),
        [SetFillStyle(item.color), SetFont(item.font), FillText(item.text, item.origin.x, item.origin.y)])
    {
      context.SetFillStyle(item.color);
      context.SetFont(item.font);
      context.FillText(item.text, item.origin.x, item.origin.y);
      RunThree(old(context.State()), SetFillStyle(item.color), SetFont(item.font), FillText(item.text, item.origin.x, item.origin.y));
    }

    /** `drawItemTexture(item)`: one image blit into the origin/end rectangle. */
    method DrawItemTexture(item: Renderable)
      modifies context
      ensures context.State() == Run(old(context.State()),
        [DrawImage(item.image, item.origin.x, item.origin.y, item.end.x, item.end.y)])
    {
      context.DrawImage(item.image, item.origin.x, item.origin.y, item.end.x, item.end.y);
      RunOne(old(context.State()), DrawImage(item.image, item.origin.x, item.origin.y, item.end.x, item.end.y));
    }

    /** `getQueue()`: the pending queue itself. */
    function GetQueue(): (q: seq<Renderable>)
      reads this
      ensures q == queue
    {
      queue
    }

    /** `getWidth()`: the canvas width at the time of the call. */
    function GetWidth(): (w: nat)
      reads this, context
      ensures w == context.State().width
    {
      context.width
    }

    /** `getHeight()`: the canvas height at the time of the call. */
    function GetHeight(): (h: nat)
      reads this, context
      ensures h == context.State().height
    {
      context.height
    }
  }

  /** Two ticks of the frame-locked loop with no append in between: the
      first drains the queue, the second issues nothing. */
  method DrawTwice(r: Renderer)
    modifies r, r.context
    ensures r.queue == []
    ensures r.context.State() == Run(old(r.context.State()), DrawOps(old(r.queue)))
  {
    r.Draw();
    ghost var afterFirst := r.context.State();
    r.Draw();
    assert r.context.State() == afterFirst;
  }
}
