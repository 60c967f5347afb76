# Canvas driver renderer, modelled in Dafny

This project models the canvas driver of cycle-canvas (`src/canvas-driver.js`). The driver runs once per frame:
1. It clears the whole canvas.
2. It walks each root of the frame's scene tree (the "vtree") through `renderElement`.

For each element, `renderElement`:
- resolves the element's position against its parent;
- assigns `context.font` when the element has a truthy `font`;
- for a `rect` or a `text`, runs every entry of the element's `draw` list, which assigns `lineWidth`, `fillStyle` and `strokeStyle` and calls `fillRect`/`strokeRect` or `fillText`/`strokeText`;
- renders the element's children in order.

The model has four modules:

- `Canvas`: the 2D context.
  - `Context` is a class holding the four properties the renderer assigns (`lineWidth`, `fillStyle`, `strokeStyle`, `font`).
  - It also keeps `log`: the ordered history of every assignment and draw call made on it (`Effect`).
  - `Valid()` ties the properties to the last entry of a ghost trace of the states the history passed through.
  - The lemma `CurrentIsReplay` turns that into an equation: the properties equal `Replay(initial, log)`, the fold of `Apply` over the history.
  - Each setter and draw method states exactly what it appends to the history and what it does to the properties.
- `Scene`: the scene tree and the rendering specification. `Element` and `Op` model a node and one of its `draw` entries as values. Pure functions say what rendering does, as a sequence of effects:
  - `RectOpEffects`/`TextOpEffects`: one draw entry;
  - `DrawEffects`: all of an element's draw entries;
  - `OwnEffects`: the element itself;
  - `Effects`: the element with its subtree;
  - `SiblingEffects`: the first `n` of a list of siblings, each rendered under the same parent position;
  - `FrameEffects`: a whole frame.
- `Driver`: the renderer as imperative code on a `Context`. Each loop of the source is a `for` loop here:
  - one method per `forEach` callback;
  - one method per `forEach` over the draw entries, for a rect and for a text;
  - one method for the recursion over children;
  - `RenderElement` and `Frame`.

  Each method is proved to append exactly the effects the matching `Scene` function describes. `RenderElement` and `Frame` are also proved to leave the properties at the replay of those effects.
- `Properties`: lemmas about the specification functions. Topics:
  - order and values within a draw entry;
  - the context state at each draw call;
  - how many calls of each kind an element makes;
  - where each call paints;
  - where each child's and each root's rendering sits in the history;
  - the single `clearRect` per frame.

JavaScript truthiness is written out:
- A string (`font`, `fill`, `stroke`) is truthy when present and non-empty (`Truthy`).
- A number (`lineWidth`) is truthy when present and non-zero (`TruthyNum`).

As a result:
- `operation.lineWidth || 1` sets a rect's line width to 1 when the entry has none or has 0.
- A text keeps the context's current line width in that case.
- `operation.fill || 'black'` sits inside `if (operation.fill)`, so its fallback never applies. `RectOpState` and `TextOpState` prove the style assigned is exactly the entry's colour.

A reader might expect offsets to add up from the root. The code does something else: at `src/canvas-driver.js:76` it passes the parent *element* as the child's `parent`. A child is therefore placed at its parent's raw `x`/`y` plus its own, and the grandparent's offset is lost. The model follows the code:
- `Effects` renders the children through `SiblingEffects` with the parent position `Point(e.x, e.y)`.
- `ChildPlacement` states this for any parent.
- `GrandchildIgnoresGrandparent` shows it on a three-level tree.

## Model

| member | source | states |
|---|---|---|
| `Canvas.Context.constructor` | src/canvas-driver.js:4 | A fresh context holds the given initial properties and has an empty history. |
| `Canvas.Context.SetFont` | src/canvas-driver.js:15 | Assigning `font` appends that assignment to the history. It changes `font` and no other property. |
| `Canvas.Context.SetLineWidth` | src/canvas-driver.js:20 | Assigning `lineWidth` appends the assignment and changes only `lineWidth`. |
| `Canvas.Context.SetFillStyle` | src/canvas-driver.js:23 | Assigning `fillStyle` appends the assignment and changes only `fillStyle`. |
| `Canvas.Context.SetStrokeStyle` | src/canvas-driver.js:34 | Assigning `strokeStyle` appends the assignment and changes only `strokeStyle`. |
| `Canvas.Context.ClearRect` | src/canvas-driver.js:81 | `clearRect(x, y, w, h)` is appended with its arguments. No property changes. |
| `Canvas.Context.FillRect` | src/canvas-driver.js:25-30 | `fillRect` is appended with its four arguments, an absent width or height passed through as absent. No property changes. |
| `Canvas.Context.StrokeRect` | src/canvas-driver.js:36-41 | `strokeRect` is appended with its four arguments. No property changes. |
| `Canvas.Context.FillText` | src/canvas-driver.js:55-60 | `fillText(text, x, y, maxWidth)` is appended with all four arguments. No property changes. |
| `Canvas.Context.StrokeText` | src/canvas-driver.js:66-71 | `strokeText(text, x, y, maxWidth)` is appended with all four arguments. No property changes. |
| `Canvas.Context.CurrentIsReplay` | src/canvas-driver.js:14-73 | A context's properties are always the result of performing its whole history, in order, from its initial properties. |
| `Canvas.ReplayAppend` | src/canvas-driver.js:79-84 | Performing a history in two parts gives the same properties as performing it at once. This is what lets property values carry over from one element, or one frame, to the next. |
| `Canvas.CallsKeepState` | src/canvas-driver.js:25-41 | A history made only of draw and clear calls leaves every property as it was. |
| `Canvas.LastAssignmentWins` | src/canvas-driver.js:15-60 | After any history, each of `lineWidth`, `fillStyle`, `strokeStyle` and `font` holds the value of that property's last assignment in the history, whatever was assigned before it. |
| `Scene.Origin` | src/canvas-driver.js:7-12 | An element is painted at its parent position plus its own `x`/`y`. A root, which has no parent, is painted at its own `x`/`y`. |
| `Driver.PaintRectOp` | src/canvas-driver.js:19-43 | One rect draw entry appends exactly `RectOpEffects` to the history and keeps the context valid. |
| `Driver.PaintTextOp` | src/canvas-driver.js:47-73 | One text draw entry appends exactly `TextOpEffects`. |
| `Driver.PaintRectDraws` | src/canvas-driver.js:18-44 | A rect's draw entries are run in list order, each at the rect's resolved position. Together they append exactly `DrawEffects`. |
| `Driver.PaintTextDraws` | src/canvas-driver.js:46-74 | A text's draw entries are run in list order. Together they append exactly `DrawEffects`. |
| `Driver.PaintDraws` | src/canvas-driver.js:18-74 | Only a `rect` or a `text` paints its draw entries. Any other kind appends nothing. |
| `Driver.RenderElement` | src/canvas-driver.js:6-77 | Rendering an element appends exactly `Effects(e, parent)`. That is the font assignment when `font` is truthy, then its draw entries, then each child in order. The properties end at the replay of those effects over the previous properties. |
| `Driver.RenderChildren` | src/canvas-driver.js:76 | The children are rendered in order, each with the element's own `x`/`y` as parent position. They append exactly `SiblingEffects` over all the children. |
| `Driver.Frame` | src/canvas-driver.js:80-84 | A frame appends one `clearRect(0, 0, width, height)` and then each root's rendering in order, each root with no parent. The properties end at the replay of the frame. |
| `Properties.RectOpState` | src/canvas-driver.js:19-43 | The fields of one rect draw entry's effects, in order. First `lineWidth` is set to the entry's line width, or 1 when it is absent or 0. Then comes the fill pair, then the stroke pair. Each style assigned is exactly the entry's colour. `fillRect` is called with the entry's line width and fill colour in force, and `strokeRect` with its line width and stroke colour. The entry always leaves that line width in force. |
| `Properties.TextOpState` | src/canvas-driver.js:47-73 | A text draw entry assigns `lineWidth` only when the entry's is truthy, and otherwise leaves the context's line width unchanged. The fill pair comes before the stroke pair, each style exactly the entry's colour. Both text calls receive the element's `value`, the position and the element's `width`. |
| `Properties.RectDrawCounts` | src/canvas-driver.js:18-44 | A rect assigns `lineWidth` once per draw entry. It calls `fillRect` once per entry with a truthy fill and `strokeRect` once per entry with a truthy stroke. |
| `Properties.TextDrawCounts` | src/canvas-driver.js:46-74 | A text assigns `lineWidth` once per entry with a truthy line width. It calls `fillText` once per entry with a truthy fill and `strokeText` once per entry with a truthy stroke. |
| `Properties.OwnShape` | src/canvas-driver.js:6-74 | In an element's own part, `font` is assigned first, and only when the element's `font` is truthy (both directions). Every later effect is a style or line-width assignment, or a call of the element's own kind. Rect calls use the resolved position with the element's `width`/`height`. Text calls use the element's `value`, the resolved position and its `width`. An element of any other kind makes no call. |
| `Properties.SiblingPlacement` | src/canvas-driver.js:76 | In the rendering of a list of siblings under one parent position, sibling `i`'s full rendering is one contiguous block. It starts right after the renderings of siblings `0..i-1`. |
| `Properties.ChildPlacement` | src/canvas-driver.js:76 | An element's rendering starts with its own part. Child `i`'s full rendering, with the element's raw `x`/`y` as its parent position, follows as one contiguous block. The block sits right after the element's own part and the blocks of children `0..i-1`, whatever the element's own parent was. |
| `Properties.NoClear` | src/canvas-driver.js:6-77 | Rendering an element, with its whole subtree, never calls `clearRect`. |
| `Properties.FrameClearsOnce` | src/canvas-driver.js:80-84 | A frame's first effect is `clearRect(0, 0, width, height)`, and it is the frame's only `clearRect`. |
| `Properties.RootPlacement` | src/canvas-driver.js:81-83 | After the clear, root `i`'s rendering with no parent, so at its own `x`/`y`, appears as one contiguous block. It follows the renderings of roots `0..i-1`. |
| `Properties.GrandchildIgnoresGrandparent` | src/canvas-driver.js:6-76 | Take a rect at offset (1, 2) under a child at (10, 20) under a root at (100, 100). It is painted at (11, 22): one level of offset, not the sum from the root. |
| `Properties.OnlyChild` | src/canvas-driver.js:13-76 | An element of another kind without a truthy `font` and with one child renders exactly what that child renders, wherever the element itself is placed. |

## Left out

- Finding the canvas with `document.querySelector`, `getContext('2d')` and subscribing to the frame stream (`src/canvas-driver.js:2-4`, `79-80`) are browser and stream I/O. `Frame` takes the context, the canvas size and one frame's roots as parameters.
- Numbers are mathematical integers. Fractional coordinates and sizes, `NaN` (for example an element without `x`), and `lineWidth` values such as `NaN` are not modelled.
- The browser's own handling of assigned values is not modelled. For example, it ignores a non-positive `lineWidth` or an unparsable colour. The context records every assignment as made, and its properties are the last values assigned.
- Several malformed inputs make the source throw a `TypeError` part-way through a frame. They are not representable in the model's types, so those error paths are not modelled:
  - a `rect` or `text` without a `draw` list (`src/canvas-driver.js:19`, `47`);
  - a `null` or `undefined` draw entry (`operation.lineWidth` at `src/canvas-driver.js:20`, `48`);
  - a `null` child (`src/canvas-driver.js:76`) or a `null` root (`element.x` at `src/canvas-driver.js:11`, reached from `83`);
  - a frame value that is not an array (`vtree.forEach` at `src/canvas-driver.js:83`).

  The model's `draw`, `children` and frame roots are always sequences of values, with an absent `children` written as the empty sequence.
- `element.value` is always a string. The model does not capture JavaScript's conversion of other values passed to `fillText`/`strokeText`.
- Element kinds other than `rect` and `text` are one value, `Other`, because the source treats every such kind alike.
- The per-element instruction translation, save/restore, transformations and further element kinds exercised by `test/driver-test.js` belong to a later version of the driver and are not part of this model. `src/app.js`, `index.js` and the examples are not part of this model either.
