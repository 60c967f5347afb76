/** What rendering promises, stated over the specification functions of
    module Scene (which the renderer in module Driver is proved to follow). */
module Properties {
  import opened Canvas
  import opened Scene

  /** How many elements of `s` (effects of a history, or draw entries)
      satisfy `p`. */
  function Count<T>(s: seq<T>, p: T -> bool): nat {
    if s == [] then 0 else Count(s[..|s| - 1], p) + (if p(s[|s| - 1]) then 1 else 0)
  }

  predicate IsFillRect(x: Effect) { x.FillRectCall? }
  predicate IsStrokeRect(x: Effect) { x.StrokeRectCall? }
  predicate IsFillText(x: Effect) { x.FillTextCall? }
  predicate IsStrokeText(x: Effect) { x.StrokeTextCall? }
  predicate IsLineWidthSet(x: Effect) { x.LineWidthSet? }
  predicate IsClear(x: Effect) { x.ClearRectCall? }

  predicate HasFill(op: Op) { Truthy(op.fill) }
  predicate HasStroke(op: Op) { Truthy(op.stroke) }
  predicate HasLineWidth(op: Op) { TruthyNum(op.lineWidth) }

  /** Counting distributes over concatenation. */
  lemma {:induction false} CountAppend<T>(a: seq<T>, b: seq<T>, p: T -> bool)
    ensures Count(a + b, p) == Count(a, p) + Count(b, p)
    decreases |b|
  {
    if b == [] {
      assert a + b == a;
    } else {
      assert (a + b)[..|a + b| - 1] == a + b[..|b| - 1];
      CountAppend(a, b[..|b| - 1], p);
    }
  }

  /** An effect a draw call of element `e` painted at `at` may be: a style or
      line-width assignment, or one of its own kind's calls with exactly the
      element's box (a rect) or text, position and width (a text). Never a
      font assignment and never a clear. */
  predicate OwnDrawStep(e: Element, at: Point, x: Effect) {
    match x
    case FontSet(_) => false
    case ClearRectCall(_, _, _, _) => false
    case FillRectCall(_, _, _, _) => e.kind.Rect? && x == FillRectCall(at.x, at.y, e.width, e.height)
    case StrokeRectCall(_, _, _, _) => e.kind.Rect? && x == StrokeRectCall(at.x, at.y, e.width, e.height)
    case FillTextCall(_, _, _, _) => e.kind.Text? && x == FillTextCall(e.value, at.x, at.y, e.width)
    case StrokeTextCall(_, _, _, _) => e.kind.Text? && x == StrokeTextCall(e.value, at.x, at.y, e.width)
    case _ => true
  }

  // ---------------------------------------------------------------------
  // One draw entry
  // ---------------------------------------------------------------------

  /** A rect's draw entry: line width first (`lineWidth || 1`), then the fill
      pair, then the stroke pair; each style is exactly the entry's colour (the
      `|| 'black'` fallback can never apply), and each call is made while the
      context holds that entry's line width and colour. */
  lemma RectOpState(s: State, op: Op, at: Point, w: Option<int>, h: Option<int>)
    ensures var r := RectOpEffects(op, at, w, h);
      var width := if TruthyNum(op.lineWidth) then op.lineWidth.value else 1;
      && |r| == 1 + (if Truthy(op.fill) then 2 else 0) + (if Truthy(op.stroke) then 2 else 0)
      && r[0] == LineWidthSet(width)
      && (Truthy(op.fill) ==>
            r[1] == FillStyleSet(op.fill.value) && r[2] == FillRectCall(at.x, at.y, w, h)
            && Replay(s, r[..2]) == s.(lineWidth := width, fillStyle := op.fill.value))
      && (Truthy(op.stroke) ==>
            r[|r| - 2] == StrokeStyleSet(op.stroke.value) && r[|r| - 1] == StrokeRectCall(at.x, at.y, w, h)
            && Replay(s, r[..|r| - 1]).lineWidth == width
            && Replay(s, r[..|r| - 1]).strokeStyle == op.stroke.value)
      && Replay(s, r).lineWidth == width
  {
    var r := RectOpEffects(op, at, w, h);
    var width := if TruthyNum(op.lineWidth) then op.lineWidth.value else 1;
    var a: seq<Effect> := [LineWidthSet(width)];
    var f: seq<Effect> := if Truthy(op.fill) then [FillStyleSet(op.fill.value), FillRectCall(at.x, at.y, w, h)] else [];
    var k: seq<Effect> := if Truthy(op.stroke) then [StrokeStyleSet(op.stroke.value), StrokeRectCall(at.x, at.y, w, h)] else [];
    assert r == a + f + k;
    ReplaySnoc(s, [], a[0]);
    assert [] + [a[0]] == a;
    var s1 := Replay(s, a);
    var s2 := s1;
    if Truthy(op.fill) {
      assert a + f == a + [f[0]] + [f[1]];
      assert r[..2] == a + [f[0]];
      ReplaySnoc(s, a, f[0]);
      ReplaySnoc(s, a + [f[0]], f[1]);
      s2 := s1.(fillStyle := op.fill.value);
    } else {
      assert a + f == a;
    }
    assert Replay(s, a + f) == s2;
    if Truthy(op.stroke) {
      assert r == a + f + [k[0]] + [k[1]];
      assert r[..|r| - 1] == a + f + [k[0]];
      ReplaySnoc(s, a + f, k[0]);
      ReplaySnoc(s, a + f + [k[0]], k[1]);
    } else {
      assert r == a + f;
    }
  }

  /** A text's draw entry: `lineWidth` is assigned only for a truthy entry
      `lineWidth`, otherwise the context keeps its line width; the fill pair
      comes before the stroke pair, each style exactly the entry's colour; and
      both text calls receive `(value, x, y, width)`, the element's `width`
      passed even when absent. */
  lemma TextOpState(s: State, op: Op, text: string, at: Point, w: Option<int>)
    ensures var r := TextOpEffects(op, text, at, w);
      var lw := if TruthyNum(op.lineWidth) then 1 else 0;
      && |r| == lw + (if Truthy(op.fill) then 2 else 0) + (if Truthy(op.stroke) then 2 else 0)
      && (TruthyNum(op.lineWidth) ==> r[0] == LineWidthSet(op.lineWidth.value))
      && (Truthy(op.fill) ==>
            r[lw] == FillStyleSet(op.fill.value) && r[lw + 1] == FillTextCall(text, at.x, at.y, w))
      && (Truthy(op.stroke) ==>
            r[|r| - 2] == StrokeStyleSet(op.stroke.value) && r[|r| - 1] == StrokeTextCall(text, at.x, at.y, w))
      && Replay(s, r).lineWidth == (if TruthyNum(op.lineWidth) then op.lineWidth.value else s.lineWidth)
  {
    var r := TextOpEffects(op, text, at, w);
    var a: seq<Effect> := if TruthyNum(op.lineWidth) then [LineWidthSet(op.lineWidth.value)] else [];
    var f: seq<Effect> := if Truthy(op.fill) then [FillStyleSet(op.fill.value), FillTextCall(text, at.x, at.y, w)] else [];
    var k: seq<Effect> := if Truthy(op.stroke) then [StrokeStyleSet(op.stroke.value), StrokeTextCall(text, at.x, at.y, w)] else [];
    assert r == a + f + k;
    ReplayAppend(s, a, f);
    ReplayAppend(s, a + f, k);
    var s1 := Replay(s, a);
    assert s1.lineWidth == (if TruthyNum(op.lineWidth) then op.lineWidth.value else s.lineWidth) by {
      if TruthyNum(op.lineWidth) {
        assert a[..0] == [];
      }
    }
    if Truthy(op.fill) {
      assert f[..1] == [f[0]] && f[..1][..0] == [];
      CallsKeepLineWidth(s1, f);
    } else {
      assert Replay(s1, f) == s1;
    }
    var s2 := Replay(s1, f);
    if Truthy(op.stroke) {
      assert k[..1] == [k[0]] && k[..1][..0] == [];
      CallsKeepLineWidth(s2, k);
    } else {
      assert Replay(s2, k) == s2;
    }
  }

  /** Replaying one more effect applies it to the replayed state. */
  lemma ReplaySnoc(s: State, log: seq<Effect>, x: Effect)
    ensures Replay(s, log + [x]) == Apply(Replay(s, log), x)
  {
    assert (log + [x])[..|log + [x]| - 1] == log;
  }

  /** A history without line-width assignments keeps the line width. */
  lemma {:induction false} CallsKeepLineWidth(s: State, log: seq<Effect>)
    requires forall k :: 0 <= k < |log| ==> !log[k].LineWidthSet?
    ensures Replay(s, log).lineWidth == s.lineWidth
    decreases |log|
  {
    if log != [] {
      CallsKeepLineWidth(s, log[..|log| - 1]);
    }
  }

  /** The line-width assignments and calls one rect draw entry makes. */
  lemma RectOpCounts(op: Op, at: Point, w: Option<int>, h: Option<int>)
    ensures Count(RectOpEffects(op, at, w, h), IsLineWidthSet) == 1
    ensures Count(RectOpEffects(op, at, w, h), IsFillRect) == (if Truthy(op.fill) then 1 else 0)
    ensures Count(RectOpEffects(op, at, w, h), IsStrokeRect) == (if Truthy(op.stroke) then 1 else 0)
  {
    var a: seq<Effect> := [LineWidthSet(OrOne(op.lineWidth))];
    var f: seq<Effect> := if Truthy(op.fill) then [FillStyleSet(OrBlack(op.fill)), FillRectCall(at.x, at.y, w, h)] else [];
    var k: seq<Effect> := if Truthy(op.stroke) then [StrokeStyleSet(OrBlack(op.stroke)), StrokeRectCall(at.x, at.y, w, h)] else [];
    assert RectOpEffects(op, at, w, h) == a + f + k;
    CountParts(a, f, k, IsLineWidthSet);
    CountParts(a, f, k, IsFillRect);
    CountParts(a, f, k, IsStrokeRect);
  }

  /** The line-width assignments and calls one text draw entry makes. */
  lemma TextOpCounts(op: Op, text: string, at: Point, w: Option<int>)
    ensures Count(TextOpEffects(op, text, at, w), IsLineWidthSet) == (if TruthyNum(op.lineWidth) then 1 else 0)
    ensures Count(TextOpEffects(op, text, at, w), IsFillText) == (if Truthy(op.fill) then 1 else 0)
    ensures Count(TextOpEffects(op, text, at, w), IsStrokeText) == (if Truthy(op.stroke) then 1 else 0)
  {
    var a: seq<Effect> := if TruthyNum(op.lineWidth) then [LineWidthSet(op.lineWidth.value)] else [];
    var f: seq<Effect> := if Truthy(op.fill) then [FillStyleSet(OrBlack(op.fill)), FillTextCall(text, at.x, at.y, w)] else [];
    var k: seq<Effect> := if Truthy(op.stroke) then [StrokeStyleSet(OrBlack(op.stroke)), StrokeTextCall(text, at.x, at.y, w)] else [];
    assert TextOpEffects(op, text, at, w) == a + f + k;
    CountParts(a, f, k, IsLineWidthSet);
    CountParts(a, f, k, IsFillText);
    CountParts(a, f, k, IsStrokeText);
  }

  /** Counting over a history made of up to three short parts (an optional
      single assignment and two optional pairs). */
  lemma CountParts(a: seq<Effect>, b: seq<Effect>, c: seq<Effect>, p: Effect -> bool)
    requires |a| <= 1 && |b| <= 2 && |c| <= 2
    ensures Count(a + b + c, p) == CountSmall(a, p) + CountSmall(b, p) + CountSmall(c, p)
  {
    CountAppend(a + b, c, p);
    CountAppend(a, b, p);
    CountSmallIsCount(a, p);
    CountSmallIsCount(b, p);
    CountSmallIsCount(c, p);
  }

  /** `Count` on a history of at most two effects, written out. */
  function CountSmall(s: seq<Effect>, p: Effect -> bool): nat
    requires |s| <= 2
  {
    (if |s| > 0 && p(s[0]) then 1 else 0) + (if |s| > 1 && p(s[1]) then 1 else 0)
  }

  lemma CountSmallIsCount(s: seq<Effect>, p: Effect -> bool)
    requires |s| <= 2
    ensures Count(s, p) == CountSmall(s, p)
  {
    if |s| > 0 {
      assert s[..|s| - 1][..0] == [];
    }
    if |s| == 2 {
      assert s[..1] == [s[0]];
    }
  }

  // ---------------------------------------------------------------------
  // All draw entries of one element
  // ---------------------------------------------------------------------

  /** Counting one more draw entry. */
  lemma CountOpsStep(ops: seq<Op>, n: nat, p: Op -> bool)
    requires n < |ops|
    ensures Count(ops[..n + 1], p) == Count(ops[..n], p) + (if p(ops[n]) then 1 else 0)
  {
    assert ops[..n + 1][..n] == ops[..n];
  }

  /** Counting over a history extended by one draw entry's effects. */
  lemma CountStep(prev: seq<Effect>, r: seq<Effect>, p: Effect -> bool, a: nat, b: nat)
    requires Count(prev, p) == a && Count(r, p) == b
    ensures Count(prev + r, p) == a + b
  {
    CountAppend(prev, r, p);
  }

  /** A rect sets the line width once per draw entry and makes exactly one
      `fillRect` per entry with a fill and one `strokeRect` per entry with a
      stroke. */
  lemma {:induction false} RectDrawCounts(e: Element, at: Point, n: nat)
    requires e.kind.Rect? && n <= |e.draw|
    ensures Count(DrawEffects(e, at, n), IsLineWidthSet) == n
    ensures Count(DrawEffects(e, at, n), IsFillRect) == Count(e.draw[..n], HasFill)
    ensures Count(DrawEffects(e, at, n), IsStrokeRect) == Count(e.draw[..n], HasStroke)
  {
    if n == 0 {
      assert DrawEffects(e, at, n) == [] && e.draw[..n] == [];
    } else {
      RectDrawCounts(e, at, n - 1);
      RectDrawStep(e, at, n);
    }
  }

  /** One more rect draw entry adds its own assignment and calls to the counts. */
  lemma RectDrawStep(e: Element, at: Point, n: nat)
    requires e.kind.Rect? && 0 < n <= |e.draw|
    requires Count(DrawEffects(e, at, n - 1), IsLineWidthSet) == n - 1
    requires Count(DrawEffects(e, at, n - 1), IsFillRect) == Count(e.draw[..n - 1], HasFill)
    requires Count(DrawEffects(e, at, n - 1), IsStrokeRect) == Count(e.draw[..n - 1], HasStroke)
    ensures Count(DrawEffects(e, at, n), IsLineWidthSet) == n
    ensures Count(DrawEffects(e, at, n), IsFillRect) == Count(e.draw[..n], HasFill)
    ensures Count(DrawEffects(e, at, n), IsStrokeRect) == Count(e.draw[..n], HasStroke)
  {
    var op := e.draw[n - 1];
    var prev := DrawEffects(e, at, n - 1);
    var r := RectOpEffects(op, at, e.width, e.height);
    assert DrawEffects(e, at, n) == prev + r;
    RectOpCounts(op, at, e.width, e.height);
    CountOpsStep(e.draw, n - 1, HasFill);
    CountOpsStep(e.draw, n - 1, HasStroke);
    CountStep(prev, r, IsLineWidthSet, n - 1, 1);
    CountStep(prev, r, IsFillRect, Count(e.draw[..n - 1], HasFill), if HasFill(op) then 1 else 0);
    CountStep(prev, r, IsStrokeRect, Count(e.draw[..n - 1], HasStroke), if HasStroke(op) then 1 else 0);
  }

  /** A text sets the line width once per draw entry with a truthy
      `lineWidth` and makes exactly one `fillText` per entry with a fill and
      one `strokeText` per entry with a stroke. */
  lemma {:induction false} TextDrawCounts(e: Element, at: Point, n: nat)
    requires e.kind.Text? && n <= |e.draw|
    ensures Count(DrawEffects(e, at, n), IsLineWidthSet) == Count(e.draw[..n], HasLineWidth)
    ensures Count(DrawEffects(e, at, n), IsFillText) == Count(e.draw[..n], HasFill)
    ensures Count(DrawEffects(e, at, n), IsStrokeText) == Count(e.draw[..n], HasStroke)
  {
    if n == 0 {
      assert DrawEffects(e, at, n) == [] && e.draw[..n] == [];
    } else {
      TextDrawCounts(e, at, n - 1);
      var op := e.draw[n - 1];
      var prev := DrawEffects(e, at, n - 1);
      var r := TextOpEffects(op, e.value, at, e.width);
      assert DrawEffects(e, at, n) == prev + r;
      TextOpCounts(op, e.value, at, e.width);
      CountOpsStep(e.draw, n - 1, HasLineWidth);
      CountOpsStep(e.draw, n - 1, HasFill);
      CountOpsStep(e.draw, n - 1, HasStroke);
      CountStep(prev, r, IsLineWidthSet, Count(e.draw[..n - 1], HasLineWidth), if HasLineWidth(op) then 1 else 0);
      CountStep(prev, r, IsFillText, Count(e.draw[..n - 1], HasFill), if HasFill(op) then 1 else 0);
      CountStep(prev, r, IsStrokeText, Count(e.draw[..n - 1], HasStroke), if HasStroke(op) then 1 else 0);
    }
  }

  /** Every effect of one draw entry is an assignment or one of the
      element's own calls. */
  lemma OpDrawSteps(e: Element, at: Point, op: Op)
    requires !e.kind.Other?
    ensures forall k :: 0 <= k < |OpEffects(e, at, op)| ==> OwnDrawStep(e, at, OpEffects(e, at, op)[k])
  {
  }

  /** Every effect of the draw entries is an assignment or one of the
      element's own calls, at `at`. */
  lemma {:induction false} DrawSteps(e: Element, at: Point, n: nat)
    requires !e.kind.Other? && n <= |e.draw|
    ensures forall k :: 0 <= k < |DrawEffects(e, at, n)| ==> OwnDrawStep(e, at, DrawEffects(e, at, n)[k])
  {
    if n == 0 {
      assert DrawEffects(e, at, n) == [];
    } else {
      DrawSteps(e, at, n - 1);
      OpDrawSteps(e, at, e.draw[n - 1]);
    }
  }

  /** The element's own part: the font is assigned first and only for a truthy
      `font`; every later effect is a style or line-width assignment or a call
      of the element's own kind at the resolved position `parent + (x, y)`,
      with the element's `width`/`height` (a rect) or `value`/`width` (a text);
      an element of any other kind makes no call at all. */
  lemma OwnShape(e: Element, parent: Option<Point>)
    ensures var own := OwnEffects(e, parent);
      && (Truthy(e.font) <==> |own| > 0 && own[0].FontSet?)
      && (Truthy(e.font) ==> own[0] == FontSet(e.font.value))
      && (forall k :: (if Truthy(e.font) then 1 else 0) <= k < |own| ==> OwnDrawStep(e, Origin(e, parent), own[k]))
      && (e.kind.Other? ==> forall k :: 0 <= k < |own| ==> !own[k].IsCall())
  {
    var at := Origin(e, parent);
    if !e.kind.Other? {
      DrawSteps(e, at, |e.draw|);
    }
    var own := OwnEffects(e, parent);
    if !Truthy(e.font) && |own| > 0 {
      assert own[0] == PaintEffects(e, at)[0];
      assert OwnDrawStep(e, at, own[0]);
    }
  }

  // ---------------------------------------------------------------------
  // The tree
  // ---------------------------------------------------------------------

  /** Rendering the first `i` of a list of siblings is a prefix of rendering
      the first `n`. */
  lemma SiblingPrefix(items: seq<Element>, parent: Option<Point>, i: nat, n: nat)
    requires i <= n <= |items|
    ensures SiblingEffects(items, parent, i) <= SiblingEffects(items, parent, n)
  {
    var k := i;
    PrefixRefl(SiblingEffects(items, parent, i), SiblingEffects(items, parent, k));
    while k < n
      invariant i <= k <= n
      invariant SiblingEffects(items, parent, i) <= SiblingEffects(items, parent, k)
    {
      SiblingGrows(items, parent, i, k + 1);
      k := k + 1;
    }
  }

  lemma SiblingGrows(items: seq<Element>, parent: Option<Point>, i: nat, n: nat)
    requires i < n <= |items| && SiblingEffects(items, parent, i) <= SiblingEffects(items, parent, n - 1)
    ensures SiblingEffects(items, parent, i) <= SiblingEffects(items, parent, n)
  {
    SiblingExtends(items, parent, n - 1);
    PrefixTrans(SiblingEffects(items, parent, i), SiblingEffects(items, parent, n - 1), SiblingEffects(items, parent, n));
  }

  // PrefixRefl and PrefixTrans state one sequence fact each. Dafny proves
  // them unaided; SiblingPrefix and SiblingGrows call them so that their
  // verification conditions stay small.

  lemma PrefixRefl(a: seq<Effect>, b: seq<Effect>)
    requires a == b
    ensures a <= b
  {
  }

  lemma PrefixTrans(a: seq<Effect>, b: seq<Effect>, c: seq<Effect>)
    requires a <= b && b <= c
    ensures a <= c
  {
  }

  lemma SiblingExtends(items: seq<Element>, parent: Option<Point>, k: nat)
    requires k < |items|
    ensures SiblingEffects(items, parent, k) <= SiblingEffects(items, parent, k + 1)
  {
    SiblingStep(items, parent, k);
  }

  /** Siblings are rendered one after the other: sibling `i`'s full
      rendering, under the shared parent position, is the block right after
      siblings `0..i-1`. */
  lemma SiblingPlacement(items: seq<Element>, parent: Option<Point>, i: nat)
    requires i < |items|
    ensures var all := SiblingEffects(items, parent, |items|);
      var c := Effects(items[i], parent);
      var start := |SiblingEffects(items, parent, i)|;
      && start + |c| <= |all|
      && all[start..start + |c|] == c
  {
    SiblingPrefix(items, parent, i + 1, |items|);
    SiblingStep(items, parent, i);
    Block(SiblingEffects(items, parent, |items|), SiblingEffects(items, parent, i + 1),
      SiblingEffects(items, parent, i), Effects(items[i], parent));
  }

  lemma SiblingStep(items: seq<Element>, parent: Option<Point>, i: nat)
    requires i < |items|
    ensures SiblingEffects(items, parent, i + 1) == SiblingEffects(items, parent, i) + Effects(items[i], parent)
  {
  }

  /** Where `c` sits in `all` when `before + c` is a prefix of `all`. */
  lemma Block(all: seq<Effect>, prefix: seq<Effect>, before: seq<Effect>, c: seq<Effect>)
    requires prefix <= all && prefix == before + c
    ensures |before| + |c| <= |all|
    ensures all[|before|..|before| + |c|] == c
  {
    assert all[..|prefix|] == prefix;
    assert all[|before|..|before| + |c|] == prefix[|before|..];
  }

  /** An element's rendering is its own part and then its children's, every
      child placed with the element's own raw `x`/`y` as parent position,
      whatever the element's own parent was. */
  lemma ChildPlacement(e: Element, parent: Option<Point>, i: nat)
    requires i < |e.children|
    ensures var own := OwnEffects(e, parent);
      var children := SiblingEffects(e.children, Some(Point(e.x, e.y)), |e.children|);
      var c := Effects(e.children[i], Some(Point(e.x, e.y)));
      var start := |SiblingEffects(e.children, Some(Point(e.x, e.y)), i)|;
      && Effects(e, parent) == own + children
      && start + |c| <= |children|
      && children[start..start + |c|] == c
  {
    SiblingPlacement(e.children, Some(Point(e.x, e.y)), i);
  }

  /** After the clear, a frame renders its roots one after the other, each
      with no parent and so at its own `x`/`y`. */
  lemma RootPlacement(width: int, height: int, roots: seq<Element>, i: nat)
    requires i < |roots|
    ensures var rendered := SiblingEffects(roots, None, |roots|);
      var c := Effects(roots[i], None);
      var start := |SiblingEffects(roots, None, i)|;
      && FrameEffects(width, height, roots) == [ClearRectCall(0, 0, width, height)] + rendered
      && start + |c| <= |rendered|
      && rendered[start..start + |c|] == c
  {
    SiblingPlacement(roots, None, i);
  }

  /** No element ever clears: only the frame does. */
  lemma {:induction false} NoClear(e: Element, parent: Option<Point>)
    ensures forall k :: 0 <= k < |Effects(e, parent)| ==> !Effects(e, parent)[k].ClearRectCall?
    decreases e, 1
  {
    OwnShape(e, parent);
    SiblingsNoClear(e.children, Some(Point(e.x, e.y)), |e.children|);
  }

  lemma {:induction false} SiblingsNoClear(items: seq<Element>, parent: Option<Point>, n: nat)
    requires n <= |items|
    ensures forall k :: 0 <= k < |SiblingEffects(items, parent, n)| ==> !SiblingEffects(items, parent, n)[k].ClearRectCall?
    decreases items, n
  {
    if n == 0 {
      assert SiblingEffects(items, parent, n) == [];
    } else {
      SiblingsNoClear(items, parent, n - 1);
      NoClear(items[n - 1], parent);
    }
  }

  /** A frame starts with one `clearRect` over the whole canvas and clears
      nothing else: everything after it is the roots' rendering. */
  lemma FrameClearsOnce(width: int, height: int, roots: seq<Element>)
    ensures var f := FrameEffects(width, height, roots);
      && f[0] == ClearRectCall(0, 0, width, height)
      && (forall k :: 0 < k < |f| ==> !f[k].ClearRectCall?)
      && Count(f, IsClear) == 1
  {
    var r := SiblingEffects(roots, None, |roots|);
    SiblingsNoClear(roots, None, |roots|);
    NoClearCount(r);
    CountAppend([ClearRectCall(0, 0, width, height)], r, IsClear);
    assert [ClearRectCall(0, 0, width, height)][..0] == [];
  }

  lemma {:induction false} NoClearCount(s: seq<Effect>)
    requires forall k :: 0 <= k < |s| ==> !s[k].ClearRectCall?
    ensures Count(s, IsClear) == 0
  {
    if s == [] {
    } else {
      NoClearCount(s[..|s| - 1]);
    }
  }

  /** A rect nested two levels deep is painted at its parent's `x`/`y` plus
      its own: the grandparent's offset (100, 100) plays no part, because a
      child receives the parent element itself, not the parent's resolved
      position. */
  lemma GrandchildIgnoresGrandparent()
    ensures var grandchild := Element(Rect, 1, 2, Some(5), Some(6), [Op(Some("red"), None, None)], None, "", []);
      var child := Element(Other, 10, 20, None, None, [], None, "", [grandchild]);
      var root := Element(Other, 100, 100, None, None, [], None, "", [child]);
      Effects(root, None) == [LineWidthSet(1), FillStyleSet("red"), FillRectCall(11, 22, Some(5), Some(6))]
  {
    var grandchild := Element(Rect, 1, 2, Some(5), Some(6), [Op(Some("red"), None, None)], None, "", []);
    var child := Element(Other, 10, 20, None, None, [], None, "", [grandchild]);
    var root := Element(Other, 100, 100, None, None, [], None, "", [child]);
    var painted: seq<Effect> := [LineWidthSet(1), FillStyleSet("red"), FillRectCall(11, 22, Some(5), Some(6))];
    GrandchildPaints(grandchild, painted);
    OnlyChild(child, Some(Point(100, 100)), painted);
    OnlyChild(root, None, painted);
  }

  /** The example's rect at (1, 2) under a parent at (10, 20). */
  lemma GrandchildPaints(e: Element, painted: seq<Effect>)
    requires e == Element(Rect, 1, 2, Some(5), Some(6), [Op(Some("red"), None, None)], None, "", [])
    requires painted == [LineWidthSet(1), FillStyleSet("red"), FillRectCall(11, 22, Some(5), Some(6))]
    ensures Effects(e, Some(Point(10, 20))) == painted
  {
    assert DrawEffects(e, Point(11, 22), 1) == painted;
  }

  /** An element that neither paints nor sets a font renders exactly what its
      only child renders, wherever it is itself placed. */
  lemma OnlyChild(e: Element, parent: Option<Point>, c: seq<Effect>)
    requires e.kind.Other? && !Truthy(e.font) && |e.children| == 1
    requires Effects(e.children[0], Some(Point(e.x, e.y))) == c
    ensures Effects(e, parent) == c
  {
    assert SiblingEffects(e.children, Some(Point(e.x, e.y)), 1) == [] + c;
  }
}
