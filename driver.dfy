/** The renderer itself: walks the scene tree and assigns and calls on the
    context step by step. Each method is proved to do exactly what the
    corresponding function of module Scene describes. */
module Driver {
  import opened Canvas
  import opened Scene

  /** The callback a rect passes to `forEach` over its draw entries. */
  method PaintRectOp(ctx: Context, op: Op, realX: int, realY: int, width: Option<int>, height: Option<int>)
    requires ctx.Valid()
    modifies ctx
    ensures ctx.Valid() && ctx.initial == old(ctx.initial)
    ensures ctx.log == old(ctx.log) + RectOpEffects(op, Point(realX, realY), width, height)
  {
    ctx.SetLineWidth(OrOne(op.lineWidth));
    ghost var afterWidth := ctx.log;
    if Truthy(op.fill) {
      ctx.SetFillStyle(OrBlack(op.fill));
      ctx.FillRect(realX, realY, width, height);
      PairStep(afterWidth, FillStyleSet(OrBlack(op.fill)), FillRectCall(realX, realY, width, height));
    }
    ghost var afterFill := ctx.log;
    if Truthy(op.stroke) {
      ctx.SetStrokeStyle(OrBlack(op.stroke));
      ctx.StrokeRect(realX, realY, width, height);
      PairStep(afterFill, StrokeStyleSet(OrBlack(op.stroke)), StrokeRectCall(realX, realY, width, height));
    }
    OpSteps(old(ctx.log), afterWidth, afterFill, ctx.log,
      RectOpEffects(op, Point(realX, realY), width, height),
      [LineWidthSet(OrOne(op.lineWidth))],
      if Truthy(op.fill) then [FillStyleSet(OrBlack(op.fill)), FillRectCall(realX, realY, width, height)] else [],
      if Truthy(op.stroke) then [StrokeStyleSet(OrBlack(op.stroke)), StrokeRectCall(realX, realY, width, height)] else []);
  }

  /** The callback a text passes to `forEach` over its draw entries. */
  method PaintTextOp(ctx: Context, op: Op, text: string, realX: int, realY: int, width: Option<int>)
    requires ctx.Valid()
    modifies ctx
    ensures ctx.Valid() && ctx.initial == old(ctx.initial)
    ensures ctx.log == old(ctx.log) + TextOpEffects(op, text, Point(realX, realY), width)
  {
    if TruthyNum(op.lineWidth) {
      ctx.SetLineWidth(op.lineWidth.value);
    }
    ghost var afterWidth := ctx.log;
    if Truthy(op.fill) {
      ctx.SetFillStyle(OrBlack(op.fill));
      ctx.FillText(text, realX, realY, width);
      PairStep(afterWidth, FillStyleSet(OrBlack(op.fill)), FillTextCall(text, realX, realY, width));
    }
    ghost var afterFill := ctx.log;
    if Truthy(op.stroke) {
      ctx.SetStrokeStyle(OrBlack(op.stroke));
      ctx.StrokeText(text, realX, realY, width);
      PairStep(afterFill, StrokeStyleSet(OrBlack(op.stroke)), StrokeTextCall(text, realX, realY, width));
    }
    OpSteps(old(ctx.log), afterWidth, afterFill, ctx.log,
      TextOpEffects(op, text, Point(realX, realY), width),
      if TruthyNum(op.lineWidth) then [LineWidthSet(op.lineWidth.value)] else [],
      if Truthy(op.fill) then [FillStyleSet(OrBlack(op.fill)), FillTextCall(text, realX, realY, width)] else [],
      if Truthy(op.stroke) then [StrokeStyleSet(OrBlack(op.stroke)), StrokeTextCall(text, realX, realY, width)] else []);
  }

  /** `element.draw.forEach(...)` for a rect: every draw entry, in order. */
  method PaintRectDraws(ctx: Context, e: Element, realX: int, realY: int)
    requires ctx.Valid() && e.kind.Rect?
    modifies ctx
    ensures ctx.Valid() && ctx.initial == old(ctx.initial)
    ensures ctx.log == old(ctx.log) + DrawEffects(e, Point(realX, realY), |e.draw|)
  {
    for i := 0 to |e.draw|
      invariant ctx.Valid() && ctx.initial == old(ctx.initial)
      invariant ctx.log == old(ctx.log) + DrawEffects(e, Point(realX, realY), i)
    {
      PaintRectOp(ctx, e.draw[i], realX, realY, e.width, e.height);
      AppendAssoc(old(ctx.log), DrawEffects(e, Point(realX, realY), i), OpEffects(e, Point(realX, realY), e.draw[i]));
    }
  }

  /** `element.draw.forEach(...)` for a text: every draw entry, in order. */
  method PaintTextDraws(ctx: Context, e: Element, realX: int, realY: int)
    requires ctx.Valid() && e.kind.Text?
    modifies ctx
    ensures ctx.Valid() && ctx.initial == old(ctx.initial)
    ensures ctx.log == old(ctx.log) + DrawEffects(e, Point(realX, realY), |e.draw|)
  {
    for i := 0 to |e.draw|
      invariant ctx.Valid() && ctx.initial == old(ctx.initial)
      invariant ctx.log == old(ctx.log) + DrawEffects(e, Point(realX, realY), i)
    {
      PaintTextOp(ctx, e.draw[i], e.value, realX, realY, e.width);
      AppendAssoc(old(ctx.log), DrawEffects(e, Point(realX, realY), i), OpEffects(e, Point(realX, realY), e.draw[i]));
    }
  }

  /** The two kind-specific blocks: a rect or a text paints its draw entries,
      any other kind paints nothing. */
  method PaintDraws(ctx: Context, e: Element, realX: int, realY: int)
    requires ctx.Valid()
    modifies ctx
    ensures ctx.Valid() && ctx.initial == old(ctx.initial)
    ensures ctx.log == old(ctx.log) + PaintEffects(e, Point(realX, realY))
  {
    if e.kind == Rect {
      PaintRectDraws(ctx, e, realX, realY);
    }
    if e.kind == Text {
      PaintTextDraws(ctx, e, realX, realY);
    }
  }

  /** Paints `e` and then its subtree; `parent` is the position of the
      element whose child `e` is, absent for a root. */
  method RenderElement(ctx: Context, e: Element, parent: Option<Point>)
    requires ctx.Valid()
    modifies ctx
    ensures ctx.Valid() && ctx.initial == old(ctx.initial)
    ensures ctx.log == old(ctx.log) + Effects(e, parent)
    ensures ctx.Current() == Replay(old(ctx.Current()), Effects(e, parent))
    decreases e, 1
  {
    ctx.CurrentIsReplay();
    var p := if parent.Some? then parent.value else Point(0, 0);
    var realX := p.x + e.x;
    var realY := p.y + e.y;

    if Truthy(e.font) {
      ctx.SetFont(e.font.value);
    }
    ghost var afterFont := ctx.log;
    PaintDraws(ctx, e, realX, realY);
    ghost var afterOwn := ctx.log;
    OwnSteps(old(ctx.log), afterFont, afterOwn, e, parent, Point(realX, realY));
    RenderChildren(ctx, e);
    ElementSteps(old(ctx.log), afterOwn, ctx.log, e, parent);
    ctx.CurrentIsReplay();
    ReplayAppend(ctx.initial, old(ctx.log), Effects(e, parent));
  }

  /** `element.children.forEach(...)`: renders each child in order, with the
      element's own `x`/`y` as the child's parent position. */
  method RenderChildren(ctx: Context, e: Element)
    requires ctx.Valid()
    modifies ctx
    ensures ctx.Valid() && ctx.initial == old(ctx.initial)
    ensures ctx.log == old(ctx.log) + SiblingEffects(e.children, Some(Point(e.x, e.y)), |e.children|)
    decreases e, 0
  {
    for i := 0 to |e.children|
      invariant ctx.Valid() && ctx.initial == old(ctx.initial)
      invariant ctx.log == old(ctx.log) + SiblingEffects(e.children, Some(Point(e.x, e.y)), i)
    {
      RenderElement(ctx, e.children[i], Some(Point(e.x, e.y)));
      AppendAssoc(old(ctx.log), SiblingEffects(e.children, Some(Point(e.x, e.y)), i), Effects(e.children[i], Some(Point(e.x, e.y))));
    }
  }

  /** One frame: clear the whole canvas, then paint each root in order. */
  method Frame(ctx: Context, width: int, height: int, roots: seq<Element>)
    requires ctx.Valid()
    modifies ctx
    ensures ctx.Valid() && ctx.initial == old(ctx.initial)
    ensures ctx.log == old(ctx.log) + FrameEffects(width, height, roots)
    ensures ctx.Current() == Replay(old(ctx.Current()), FrameEffects(width, height, roots))
  {
    ctx.CurrentIsReplay();
    ctx.ClearRect(0, 0, width, height);
    ghost var cleared := ctx.log;
    for i := 0 to |roots|
      invariant ctx.Valid() && ctx.initial == old(ctx.initial)
      invariant ctx.log == cleared + SiblingEffects(roots, None, i)
    {
      RenderElement(ctx, roots[i], None);
      AppendAssoc(cleared, SiblingEffects(roots, None, i), Effects(roots[i], None));
    }
    AppendAssoc(old(ctx.log), [ClearRectCall(0, 0, width, height)], SiblingEffects(roots, None, |roots|));
    ctx.CurrentIsReplay();
    ReplayAppend(ctx.initial, old(ctx.log), FrameEffects(width, height, roots));
  }
}
