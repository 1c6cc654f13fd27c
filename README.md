# Renderer queue and typewriter scene

This project is a Dafny model of two small parts of a canvas-based 2D game
shell.

**The renderer** (`src/Core/Renderer.js`) keeps an ordered queue of
renderables. `appendQueue` pushes onto it and `clearQueue` empties it.
`draw` walks the queue in order, hands each item to `drawItem`, then
clears the queue. `drawItem` switches on the item's type string: `"color"`,
`"text"` and `"texture"` each go to their own routine, and every other
string is silently ignored. The color and text routines assign the
context's `fillStyle` (and, for text, `font`) and then make one call,
`fillRect` or `fillText`; the texture routine assigns nothing and makes one
`drawImage` call.

**The demo scene** (`src/Scenes/TestScene.js`) types out one fixed sentence
like a typewriter. A countdown `textBuff` starts at 3. Each `updateLogic`
call shows one more character only when the countdown has run out, and
then resets the countdown to 3. On every call, shown or not, the countdown
is then decremented and clamped at 0. `updateRenderables`
rebuilds a fixed list of four renderables from scratch on every call.

Layout:

- `Canvas.dfy` (module `Canvas`) is the 2D context as an abstract surface.
  - Its state is the canvas width and height, the current `fillStyle` and
    `font`, and a trace of every operation issued so far.
  - `Step` and `Run` give the meaning of one operation and of a sequence of
    operations.
  - The class `Surface` is the context object. Every attribute assignment
    and every call goes through its methods.
- `Renderer.dfy` (module `Core`) holds the renderable, the dispatch and the
  class `Renderer`.
  - `ItemOps` gives the operations `drawItem` issues for one item.
    `DrawOps` gives the operations `draw` issues for a whole queue.
  - The methods of `Renderer` are proved against these two functions.
  - The lemmas beside them state ordering, once-only drawing, no-op on
    unknown kinds, and the attributes each kind leaves behind.
- `TestScene.dfy` (module `Scenes`) holds the typewriter as a pure step
  function `Tick`, the class `TestScene` whose methods are proved against
  it, and `Frame`, the four-element list.
  - `TicksClosedForm` proves that the state after n calls equals an
    explicit closed form, `AfterCalls`.
  - The cadence, bounds and completion lemmas are derived from that closed
    form.

## Model

| member | source | states |
|---|---|---|
| `Canvas.Run` | src/Core/Renderer.js:85-124 | issuing a sequence of operations appends exactly that sequence to the context's trace and never changes the canvas width or height |
| `Canvas.RunAppend` | src/Core/Renderer.js:57-65 | issuing `a` then `b` leaves the context exactly as issuing `a + b` does, so per-item effects compose along the queue |
| `Canvas.Step` | src/Core/Renderer.js:86-123 | one context assignment or call is appended to the trace; an assignment to `fillStyle` or `font` also becomes the current value of that attribute |
| `Canvas.Surface.SetFillStyle` | src/Core/Renderer.js:86 | the context's `fillStyle = …` assignment: the new state is one `Step` of the old |
| `Canvas.Surface.SetFont` | src/Core/Renderer.js:103 | the context's `font = …` assignment: the new state is one `Step` of the old |
| `Canvas.Surface.FillRect` | src/Core/Renderer.js:88-93 | the context's `fillRect` call: the new state is one `Step` of the old |
| `Canvas.Surface.FillText` | src/Core/Renderer.js:104-108 | the context's `fillText` call: the new state is one `Step` of the old |
| `Canvas.Surface.DrawImage` | src/Core/Renderer.js:117-123 | the context's `drawImage` call: the new state is one `Step` of the old |
| `Core.ItemOps` | src/Core/Renderer.js:72-124 | the operations `drawItem` issues: none exactly for an unrecognised type; otherwise attribute assignments only, followed by the item's single pixel-producing call as the last operation |
| `Core.DrawOps` | src/Core/Renderer.js:57-62 | the operations the `draw` loop issues: at most three per item, and none for a queue with no recognised item |
| `Core.DrawTwice` | src/Core/Renderer.js:57-65 | two `draw` calls with no append in between leave the context exactly where one `draw` leaves it, and the queue empty |
| `Core.Renderer.constructor` | src/Core/Renderer.js:14-36 | a new renderer is bound to the given context and its queue is empty |
| `Core.Renderer.AppendQueue` | src/Core/Renderer.js:43-45 | the queue becomes the old queue followed by the item; earlier entries keep their positions and the context is untouched |
| `Core.Renderer.ClearQueue` | src/Core/Renderer.js:50-52 | the queue becomes empty and the context is untouched |
| `Core.Renderer.Draw` | src/Core/Renderer.js:57-65 | the context ends in the state reached by issuing every queued item's operations in queue order, the canvas width and height are unchanged, and the queue is empty afterwards |
| `Core.Renderer.DrawItem` | src/Core/Renderer.js:72-78 | the context ends in the state reached by issuing exactly the item's dispatched operations, and nothing for an unrecognised type |
| `Core.Renderer.DrawItemColor` | src/Core/Renderer.js:85-94 | exactly `SetFillStyle(color)` then `FillRect(origin.x, origin.y, end.x, end.y)` are issued |
| `Core.Renderer.DrawItemText` | src/Core/Renderer.js:101-109 | exactly `SetFillStyle(color)`, `SetFont(font)`, `FillText(text, origin.x, origin.y)` are issued, in that order |
| `Core.Renderer.DrawItemTexture` | src/Core/Renderer.js:116-124 | exactly one `DrawImage(image, origin.x, origin.y, end.x, end.y)` is issued |
| `Core.Renderer.GetQueue` | src/Core/Renderer.js:149-151 | returns the pending queue itself, which `draw` iterates over |
| `Core.Renderer.GetWidth` | src/Core/Renderer.js:158-160 | returns the context's current canvas width and changes nothing |
| `Core.Renderer.GetHeight` | src/Core/Renderer.js:140-142 | returns the context's current canvas height and changes nothing |
| `Core.DrawOpsAppend` | src/Core/Renderer.js:60-62 | draining the queue `a + b` issues what draining `a` issues, followed by what draining `b` issues |
| `Core.ItemPrimitives` | src/Core/Renderer.js:72-124 | a recognised item makes exactly one pixel-producing call (its own); an unrecognised one makes none |
| `Core.DrawnOncePerItemInOrder` | src/Core/Renderer.js:57-65 | draining a queue makes one pixel-producing call per recognised item, in insertion order: none dropped, none repeated |
| `Core.UnknownItemsAreSkipped` | src/Core/Renderer.js:72-78 | draining a queue issues the same operations as draining only its recognised items |
| `Core.UnknownKindIsNoOp` | src/Core/Renderer.js:72-78 | an item issues no operation if and only if its type is none of "color", "text", "texture" |
| `Core.TextureKeepsStyle` | src/Core/Renderer.js:116-124 | a "texture" item changes neither the fill style nor the font |
| `Core.ColorSetsFillStyleOnly` | src/Core/Renderer.js:85-94 | a "color" item leaves the font unchanged and leaves the item's color as fill style |
| `Core.TextIgnoresEnd` | src/Core/Renderer.js:101-109 | a "text" item's operations do not depend on its end point, and leave the item's color and font as the context's attributes |
| `Core.DrainedQueueDrawsNothing` | src/Core/Renderer.js:64 | draining an empty queue leaves the context exactly as it was, so a second `draw` with no append in between issues nothing |
| `Scenes.TestScene.constructor` | src/Scenes/TestScene.js:2-12 | nothing typed, countdown 3, the fixed sentence, frame rate 0; the typewriter invariant holds |
| `Scenes.TestScene.UpdateLogic` | src/Scenes/TestScene.js:17-36 | the typewriter moves by exactly one `Tick`, the invariant is kept, the countdown ends in [0, 2] and the new frame rate is recorded |
| `Scenes.TestScene.UpdateRenderables` | src/Scenes/TestScene.js:41-77 | the previous list is discarded and replaced by exactly the four-element frame of the current size, frame rate and typed text |
| `Scenes.TickKeepsConsistent` | src/Scenes/TestScene.js:24-35 | from a state where the shown text is a prefix and the countdown is in [0, 3], one call keeps both and leaves the countdown in [0, 2] |
| `Scenes.Tick` | src/Scenes/TestScene.js:24-35 | the reveal step of one `updateLogic` call: it never shrinks the shown text, adds at most one character, and never leaves the countdown negative |
| `Scenes.Ticks` | src/Scenes/TestScene.js:24-35 | after n calls the earlier text is still shown and at most n characters have been added |
| `Scenes.AfterCalls` | src/Scenes/TestScene.js:9-35 | the closed-form state after n calls satisfies the typewriter invariant and shows at most n / 3 characters |
| `Scenes.Frame` | src/Scenes/TestScene.js:41-77 | the four items `updateRenderables` pushes, in order: color "#7e7e7e" with (width, height) and (0, 0); text "red"/"20px Arial" at (width - 100, 100) reading "FPS: " + fps; color "#000" with (width - 200, height - 550) and (100, 500); text "#fff"/"14px Arial" at (120, 520) reading the typed text |
| `Scenes.TickAppendsWhen` | src/Scenes/TestScene.js:24-33 | a character is added if and only if the countdown is below 1 on entry and the sentence is incomplete; after an append the countdown is 2 |
| `Scenes.TicksConsistent` | src/Scenes/TestScene.js:9-35 | every state reached from the initial one has a prefix of the sentence shown and the countdown in [0, 3] |
| `Scenes.TicksClosedForm` | src/Scenes/TestScene.js:9-35 | after n calls, with m = n - 1, exactly the first min(m / 3, length) characters are shown; the countdown is 2 - m % 3 up to two calls after the completing call, and 0 from then on |
| `Scenes.RevealCadence` | src/Scenes/TestScene.js:24-35 | the n-th call adds a character exactly when n is 4, 7, 10, … up to 3·length + 1, so appends are separated by exactly two non-appending calls |
| `Scenes.FirstAppendOnFourthCall` | src/Scenes/TestScene.js:9-35 | three calls show nothing; the fourth shows the first character |
| `Scenes.CompleteIsStable` | src/Scenes/TestScene.js:24-35 | once the whole sentence is shown, further calls keep it and drive the countdown down to 0, where it stays |
| `Scenes.ExampleTextCompletion` | src/Scenes/TestScene.js:9-35 | the scene's 47-character sentence is complete from call 142 on and not before, and from call 144 on the countdown is 0 |
| `Scenes.FrameAfterCalls` | src/Scenes/TestScene.js:41-77 | after n updates the frame has four items; the second reads "FPS: " + rate; the fourth shows exactly the typed prefix of the sentence |

## Left out

- The repeating timer in the renderer's constructor, `setInterval(loopRef, 1000 / maxFPS)`, is left out. It is host timer plumbing, and its interval is a floating-point division.
- `setContext` and `getContext` are modelled by passing the context (a `Surface`) straight to the constructor and reading the field. `$canvas.getContext("2d")` is DOM access.
- `src/Game.js` is not part of this model. It is composition-root wiring over `document.getElementById`, `requestAnimationFrame` and `setInterval`.
- The two loops are not interleaved. The code is single-threaded and `draw` runs to completion without yielding, so `Draw` is one atomic method.
- The FPS smoothing in `updateLogic` is left out. It reads `Date.now()` and uses floating-point arithmetic with `toFixed`. Instead, the formatted rate is an opaque string parameter of `UpdateLogic`. The constructor's numeric 0 is the string `"0"`, which is what `"FPS: " + 0` prints.
- The `RenderableColor`, `RenderableText` and `RenderableTexture` classes are not shown. The renderer sees a renderable only through its getters (`getType`, `getColor`, `getFont`, `getOrigin`, `getEnd`, `getText`, `getImage`), so one datatype carries every field. The type string is kept raw, so unknown types can be represented.
- Argument meaning in the renderable constructors is not modelled, for the same reason. The scene's list is modelled as the constructor calls with their arguments in the positions the scene passes them (`SceneItem`). It is not converted into renderer items.
- `Scene`, `SceneManager` and `InputController` are not shown.
- Storing `width` and `height` is an assumption. `TestScene`'s constructor passes both to `super(x, y)`, and the model assumes the base class stores them as `width` and `height`.
- Starting `renderables` as an empty list is an assumption. The base class is not shown, and `updateRenderables` overwrites the list before any read.
- Coordinates are unbounded integers. The source uses JavaScript numbers, which are doubles, but every coordinate here is a small integer expression.
- `textBuff` is briefly -1 inside one `updateLogic` call, between the pre-decrement and the clamp. Only the states at call boundaries are modelled, and those are all in [0, 3].
- Timing is not modelled. `Draw` on an empty queue issues nothing (`DrainedQueueDrawsNothing`, `DrawTwice`).
- A color item followed by a text item issues five operations, two of them pixel-producing, because the `fillStyle` and `font` assignments are recorded as operations.
- The scene passes `{x: width, y: height}` first and `{x: 0, y: 0}` second to its background color item. The model keeps that order because the constructor that decides which is the origin is not shown.
- Context calls and renderable getters are assumed not to throw. In the source, `draw` has no `try`/`finally`: a throwing `drawImage` (a null or broken image) or a getter returning `undefined` would leave the earlier items drawn and `clearQueue` unreached, so the next tick would redraw the whole queue. The `Surface` methods never fail, so `Draw`, `DrawTwice` and `DrawnOncePerItemInOrder` hold only under this assumption.
- Core.Renderer.GetQueue: returns the queue as a value. In the source `getQueue` returns the live array, so pushes through that reference reach the renderer, and the reference goes stale once `clearQueue` assigns a new array. Aliasing of the queue array is not modelled.
- The surface records every `fillStyle` and `font` assignment as given. A real 2D context ignores unparsable values and reads back a normalised form ("red" becomes "#ff0000"), so the attribute claims of `ColorSetsFillStyleOnly` and `TextIgnoresEnd` are about the values assigned, not the values a browser context would report.
