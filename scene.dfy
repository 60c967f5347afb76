/** The scene tree a frame is made of, and what rendering it does to the
    context, as pure functions: the specification the imperative renderer in
    module Driver is proved to follow. */
module Scene {
  import opened Canvas

  /** `element.kind`: only 'rect' and 'text' paint anything. */
  datatype Kind = Rect | Text | Other

  /** One entry of `element.draw`. */
  datatype Op = Op(fill: Option<string>, stroke: Option<string>, lineWidth: Option<int>)

  datatype Point = Point(x: int, y: int)

  /** A node of the scene tree. `x`/`y` are offsets from the parent node's own
      `x`/`y`; an absent `children` is the empty sequence. */
  datatype Element = Element(
    kind: Kind,
    x: int,
    y: int,
    width: Option<int>,
    height: Option<int>,
    draw: seq<Op>,
    font: Option<string>,
    value: string,
    children: seq<Element>)

  /** `parent` when there is one, else the origin. */
  function ParentOrOrigin(parent: Option<Point>): Point {
    if parent.Some? then parent.value else Point(0, 0)
  }

  /** Where the element paints: parent position plus its own offset. */
  function Origin(e: Element, parent: Option<Point>): (at: Point)
    ensures parent.None? ==> at == Point(e.x, e.y)
    ensures parent.Some? ==> at == Point(parent.value.x + e.x, parent.value.y + e.y)
  {
    var p := ParentOrOrigin(parent);
    Point(p.x + e.x, p.y + e.y)
  }

  /** `c || 'black'` on a colour. */
  function OrBlack(c: Option<string>): string {
    if Truthy(c) then c.value else "black"
  }

  /** `n || 1` on a line width. */
  function OrOne(n: Option<int>): int {
    if TruthyNum(n) then n.value else 1
  }

  /** What one draw entry of a rect does. */
  function RectOpEffects(op: Op, at: Point, width: Option<int>, height: Option<int>): seq<Effect> {
    [LineWidthSet(OrOne(op.lineWidth))]
    + (if Truthy(op.fill) then [FillStyleSet(OrBlack(op.fill)), FillRectCall(at.x, at.y, width, height)] else [])
    + (if Truthy(op.stroke) then [StrokeStyleSet(OrBlack(op.stroke)), StrokeRectCall(at.x, at.y, width, height)] else [])
  }

  /** What one draw entry of a text does. */
  function TextOpEffects(op: Op, text: string, at: Point, width: Option<int>): seq<Effect> {
    (if TruthyNum(op.lineWidth) then [LineWidthSet(op.lineWidth.value)] else [])
    + (if Truthy(op.fill) then [FillStyleSet(OrBlack(op.fill)), FillTextCall(text, at.x, at.y, width)] else [])
    + (if Truthy(op.stroke) then [StrokeStyleSet(OrBlack(op.stroke)), StrokeTextCall(text, at.x, at.y, width)] else [])
  }

  /** What one draw entry does for a painting element. */
  function OpEffects(e: Element, at: Point, op: Op): seq<Effect>
    requires !e.kind.Other?
  {
    if e.kind.Rect? then RectOpEffects(op, at, e.width, e.height)
    else TextOpEffects(op, e.value, at, e.width)
  }

  /** What the first `n` draw entries do, in order. */
  function DrawEffects(e: Element, at: Point, n: nat): seq<Effect>
    requires !e.kind.Other? && n <= |e.draw|
  {
    if n == 0 then [] else DrawEffects(e, at, n - 1) + OpEffects(e, at, e.draw[n - 1])
  }

  /** The font assignment, made only for a truthy `font`. */
  function FontEffects(e: Element): seq<Effect> {
    if Truthy(e.font) then [FontSet(e.font.value)] else []
  }

  /** What the element's draw entries do when it is painted at `at`: only a
      rect or a text paints. */
  function PaintEffects(e: Element, at: Point): seq<Effect> {
    if e.kind.Other? then [] else DrawEffects(e, at, |e.draw|)
  }

  /** What the element does itself, before any child is rendered. */
  function OwnEffects(e: Element, parent: Option<Point>): seq<Effect> {
    FontEffects(e) + PaintEffects(e, Origin(e, parent))
  }

  /** Everything rendering `e` (and its subtree) under `parent` does: its
      own part, then its children, each with `e`'s own `x`/`y` as parent. */
  function Effects(e: Element, parent: Option<Point>): seq<Effect>
    decreases e, 1
  {
    OwnEffects(e, parent) + SiblingEffects(e.children, Some(Point(e.x, e.y)), |e.children|)
  }

  /** What rendering the first `n` of `items` in order, each under `parent`,
      does. */
  function SiblingEffects(items: seq<Element>, parent: Option<Point>, n: nat): seq<Effect>
    requires n <= |items|
    decreases items, n
  {
    if n == 0 then []
    else SiblingEffects(items, parent, n - 1) + Effects(items[n - 1], parent)
  }

  /** Painting the font and then the draw entries at the resolved position is
      the element's own part. */
  lemma OwnSteps(log0: seq<Effect>, afterFont: seq<Effect>, afterOwn: seq<Effect>, e: Element, parent: Option<Point>, at: Point)
    requires at == Point(ParentOrOrigin(parent).x + e.x, ParentOrOrigin(parent).y + e.y)
    requires afterFont == log0 + FontEffects(e)
    requires afterOwn == afterFont + PaintEffects(e, at)
    ensures afterOwn == log0 + OwnEffects(e, parent)
  {
    AppendAssoc(log0, FontEffects(e), PaintEffects(e, at));
  }

  /** The element's own part followed by all its children is the element. */
  lemma ElementSteps(log0: seq<Effect>, afterOwn: seq<Effect>, log: seq<Effect>, e: Element, parent: Option<Point>)
    requires afterOwn == log0 + OwnEffects(e, parent)
    requires log == afterOwn + SiblingEffects(e.children, Some(Point(e.x, e.y)), |e.children|)
    ensures log == log0 + Effects(e, parent)
  {
    AppendAssoc(log0, OwnEffects(e, parent), SiblingEffects(e.children, Some(Point(e.x, e.y)), |e.children|));
  }

  /** Everything one frame does on a canvas of the given size. */
  function FrameEffects(width: int, height: int, roots: seq<Element>): seq<Effect> {
    [ClearRectCall(0, 0, width, height)] + SiblingEffects(roots, None, |roots|)
  }
}
