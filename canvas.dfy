/** The 2D drawing context the renderer paints on: the four properties the
    renderer assigns, and the ordered history of every assignment and draw call
    made on it. */
module Canvas {

  datatype Option<T> = None | Some(value: T)

  /** JavaScript truthiness of an optional string: present and not empty. */
  predicate Truthy(s: Option<string>) {
    s.Some? && |s.value| > 0
  }

  /** JavaScript truthiness of an optional number: present and not zero. */
  predicate TruthyNum(n: Option<int>) {
    n.Some? && n.value != 0
  }

  /** One thing done to the context: a property assignment or a draw call.
      Rectangle and text extents are optional because the renderer passes an
      element's `width`/`height` through even when the element has none. */
  datatype Effect =
    | FontSet(font: string)
    | LineWidthSet(lineWidth: int)
    | FillStyleSet(fillStyle: string)
    | StrokeStyleSet(strokeStyle: string)
    | ClearRectCall(x: int, y: int, clearWidth: int, clearHeight: int)
    | FillRectCall(x: int, y: int, width: Option<int>, height: Option<int>)
    | StrokeRectCall(x: int, y: int, width: Option<int>, height: Option<int>)
    | FillTextCall(text: string, x: int, y: int, maxWidth: Option<int>)
    | StrokeTextCall(text: string, x: int, y: int, maxWidth: Option<int>)
  {
    /** A call that paints (or clears) pixels, as opposed to a property assignment. */
    predicate IsCall() {
      ClearRectCall? || FillRectCall? || StrokeRectCall? || FillTextCall? || StrokeTextCall?
    }
  }

  /** The context properties the renderer writes. */
  datatype State = State(lineWidth: int, fillStyle: string, strokeStyle: string, font: string)

  /** The state after one effect: an assignment replaces its property, a call changes none. */
  function Apply(s: State, e: Effect): State {
    match e
    case FontSet(f) => s.(font := f)
    case LineWidthSet(w) => s.(lineWidth := w)
    case FillStyleSet(c) => s.(fillStyle := c)
    case StrokeStyleSet(c) => s.(strokeStyle := c)
    case _ => s
  }

  /** The state reached from `s` by performing `log` in order. */
  function Replay(s: State, log: seq<Effect>): State
    decreases |log|
  {
    if log == [] then s else Apply(Replay(s, log[..|log| - 1]), log[|log| - 1])
  }

  // The next three lemmas state one sequence fact each. Dafny proves them
  // unaided; they exist so that the methods that call them reason about
  // plain sequences in a small verification condition.

  /** Regrouping a history split in three parts. */
  lemma AppendAssoc(a: seq<Effect>, b: seq<Effect>, c: seq<Effect>)
    ensures a + b + c == a + (b + c)
  {
  }

  /** Two effects appended one after the other are the pair appended. */
  lemma PairStep(log: seq<Effect>, a: Effect, b: Effect)
    ensures log + [a] + [b] == log + [a, b]
  {
  }

  /** A history extended by three parts in turn is extended by their concatenation. */
  lemma OpSteps(log0: seq<Effect>, log1: seq<Effect>, log2: seq<Effect>, log3: seq<Effect>,
                whole: seq<Effect>, a: seq<Effect>, b: seq<Effect>, c: seq<Effect>)
    requires whole == a + b + c
    requires log1 == log0 + a && log2 == log1 + b && log3 == log2 + c
    ensures log3 == log0 + whole
  {
    AppendAssoc(log0, a, b);
    AppendAssoc(log0, a + b, c);
  }

  /** Replaying a history in two parts is replaying it whole. */
  lemma {:induction false} ReplayAppend(s: State, a: seq<Effect>, b: seq<Effect>)
    ensures Replay(s, a + b) == Replay(Replay(s, a), b)
    decreases |b|
  {
    if b == [] {
      assert a + b == a;
    } else {
      var b' := b[..|b| - 1];
      assert (a + b)[..|a + b| - 1] == a + b';
      ReplayAppend(s, a, b');
    }
  }

  /** Draw calls leave every property as it was. */
  lemma {:induction false} CallsKeepState(s: State, log: seq<Effect>)
    requires forall k :: 0 <= k < |log| ==> log[k].IsCall()
    ensures Replay(s, log) == s
    decreases |log|
  {
    if log != [] {
      CallsKeepState(s, log[..|log| - 1]);
    }
  }

  /** The four context properties the renderer assigns. */
  datatype Property = LineWidth | FillStyle | StrokeStyle | Font

  /** `e` assigns property `p`. */
  predicate Assigns(e: Effect, p: Property) {
    match p
    case LineWidth => e.LineWidthSet?
    case FillStyle => e.FillStyleSet?
    case StrokeStyle => e.StrokeStyleSet?
    case Font => e.FontSet?
  }

  /** States `a` and `b` agree on property `p`. */
  predicate SameProperty(a: State, b: State, p: Property) {
    match p
    case LineWidth => a.lineWidth == b.lineWidth
    case FillStyle => a.fillStyle == b.fillStyle
    case StrokeStyle => a.strokeStyle == b.strokeStyle
    case Font => a.font == b.font
  }

  /** After a history, each property holds the value its last assignment in
      that history wrote, whatever came before it: replaying the history
      agrees on that property with applying the last assignment alone to any
      state. */
  lemma {:induction false} LastAssignmentWins(s: State, log: seq<Effect>, k: nat, p: Property, t: State)
    requires k < |log| && Assigns(log[k], p)
    requires forall j :: k < j < |log| ==> !Assigns(log[j], p)
    ensures SameProperty(Replay(s, log), Apply(t, log[k]), p)
    decreases |log|
  {
    if k < |log| - 1 {
      LastAssignmentWins(s, log[..|log| - 1], k, p, t);
    }
  }

  /** `states` is the sequence of states a history passes through from `init`:
      one more than its effects, each the previous one with an effect applied. */
  ghost predicate Traces(init: State, log: seq<Effect>, states: seq<State>) {
    |states| == |log| + 1 && states[0] == init
    && forall k :: 0 <= k < |log| ==> states[k + 1] == Apply(states[k], log[k])
  }

  /** The states a history passes through are its replayed prefixes. */
  lemma {:induction false} TracesReplay(init: State, log: seq<Effect>, states: seq<State>, n: nat)
    requires Traces(init, log, states) && n <= |log|
    ensures states[n] == Replay(init, log[..n])
  {
    if n > 0 {
      TracesReplay(init, log, states, n - 1);
      assert log[..n][..n - 1] == log[..n - 1];
    }
  }

  /** A 2D context as the renderer sees it. `log` is every assignment and call
      made on it, in order; Valid() says the properties are where the states
      the history passed through (ghost `states`) end, so that they are exactly
      what replaying the history from the initial properties gives. */
  class Context {
    var lineWidth: int
    var fillStyle: string
    var strokeStyle: string
    var font: string
    var log: seq<Effect>
    ghost var initial: State
    ghost var states: seq<State>

    function Current(): State
      reads this
    {
      State(lineWidth, fillStyle, strokeStyle, font)
    }

    ghost predicate Valid()
      reads this
    {
      Traces(initial, log, states) && states[|log|] == Current()
    }

    /** The properties are the replay of the history. */
    lemma CurrentIsReplay()
      requires Valid()
      ensures Current() == Replay(initial, log)
    {
      TracesReplay(initial, log, states, |log|);
      assert log[..|log|] == log;
    }

    constructor (init: State)
      ensures Valid() && initial == init && log == [] && Current() == init
    {
      lineWidth, fillStyle, strokeStyle, font := init.lineWidth, init.fillStyle, init.strokeStyle, init.font;
      log := [];
      initial := init;
      states := [init];
    }

    /** Appends `e` to the history, the properties having already been updated. */
    method Record(e: Effect)
      requires Traces(initial, log, states) && Current() == Apply(states[|log|], e)
      modifies this`log, this`states
      ensures Valid() && log == old(log) + [e]
    {
      log := log + [e];
      states := states + [Current()];
    }

    /** `context.font = f` */
    method SetFont(f: string)
      requires Valid()
      modifies this
      ensures Valid() && initial == old(initial)
      ensures log == old(log) + [FontSet(f)]
      ensures Current() == old(Current()).(font := f)
    {
      font := f;
      Record(FontSet(f));
    }

    /** `context.lineWidth = w` */
    method SetLineWidth(w: int)
      requires Valid()
      modifies this
      ensures Valid() && initial == old(initial)
      ensures log == old(log) + [LineWidthSet(w)]
      ensures Current() == old(Current()).(lineWidth := w)
    {
      lineWidth := w;
      Record(LineWidthSet(w));
    }

    /** `context.fillStyle = c` */
    method SetFillStyle(c: string)
      requires Valid()
      modifies this
      ensures Valid() && initial == old(initial)
      ensures log == old(log) + [FillStyleSet(c)]
      ensures Current() == old(Current()).(fillStyle := c)
    {
      fillStyle := c;
      Record(FillStyleSet(c));
    }

    /** `context.strokeStyle = c` */
    method SetStrokeStyle(c: string)
      requires Valid()
      modifies this
      ensures Valid() && initial == old(initial)
      ensures log == old(log) + [StrokeStyleSet(c)]
      ensures Current() == old(Current()).(strokeStyle := c)
    {
      strokeStyle := c;
      Record(StrokeStyleSet(c));
    }

    /** Records a draw call; calls change no property. */
    method Call(e: Effect)
      requires Valid() && e.IsCall()
      modifies this
      ensures Valid() && initial == old(initial)
      ensures log == old(log) + [e]
      ensures Current() == old(Current())
    {
      Record(e);
    }

    /** `context.clearRect(x, y, w, h)` */
    method ClearRect(x: int, y: int, w: int, h: int)
      requires Valid()
      modifies this
      ensures Valid() && initial == old(initial)
      ensures log == old(log) + [ClearRectCall(x, y, w, h)]
      ensures Current() == old(Current())
    {
      Call(ClearRectCall(x, y, w, h));
    }

    /** `context.fillRect(x, y, w, h)` */
    method FillRect(x: int, y: int, w: Option<int>, h: Option<int>)
      requires Valid()
      modifies this
      ensures Valid() && initial == old(initial)
      ensures log == old(log) + [FillRectCall(x, y, w, h)]
      ensures Current() == old(Current())
    {
      Call(FillRectCall(x, y, w, h));
    }

    /** `context.strokeRect(x, y, w, h)` */
    method StrokeRect(x: int, y: int, w: Option<int>, h: Option<int>)
      requires Valid()
      modifies this
      ensures Valid() && initial == old(initial)
      ensures log == old(log) + [StrokeRectCall(x, y, w, h)]
      ensures Current() == old(Current())
    {
      Call(StrokeRectCall(x, y, w, h));
    }

    /** `context.fillText(text, x, y, maxWidth)` */
    method FillText(text: string, x: int, y: int, maxWidth: Option<int>)
      requires Valid()
      modifies this
      ensures Valid() && initial == old(initial)
      ensures log == old(log) + [FillTextCall(text, x, y, maxWidth)]
      ensures Current() == old(Current())
    {
      Call(FillTextCall(text, x, y, maxWidth));
    }

    /** `context.strokeText(text, x, y, maxWidth)` */
    method StrokeText(text: string, x: int, y: int, maxWidth: Option<int>)
      requires Valid()
      modifies this
      ensures Valid() && initial == old(initial)
      ensures log == old(log) + [StrokeTextCall(text, x, y, maxWidth)]
      ensures Current() == old(Current())
    {
      Call(StrokeTextCall(text, x, y, maxWidth));
    }
  }
}
