/**
 * The configuration sidebar (components/Sidebar.tsx): the drag handle that resizes it,
 * and the form handlers that edit one field of the configuration.
 *
 * The width is owned by the root component and passed in with its setter; the model
 * keeps it next to the handle's `isResizing` flag.
 */
module Sidebar {
  import opened Text
  import opened EditorTypes

  const MinWidth := 280
  const MaxWidth := 500

  predicate InRange(width: int)
  {
    MinWidth <= width <= MaxWidth
  }

  /**
   * The handle's `isResizing` ref, whether the window `mousemove`/`mouseup` listeners
   * are attached, and the width. The listeners are added by an effect whose only
   * changing dependency is `isResizing.current`, read when the component renders: a
   * press or a release writes the ref without causing a render, so the listeners
   * follow the ref only at the next render.
   */
  datatype ResizeState = ResizeState(resizing: bool, listening: bool, width: int)

  datatype ResizeEvent =
    | MouseDown               // on the handle
    | MouseMove(clientX: int) // on the window
    | MouseUp                 // on the window
    | Render                  // the sidebar re-renders, for any reason, and its effects run

  /** Mounted with a width: not resizing, and the mount effect attached nothing. */
  function Mounted(width: int): (r: ResizeState)
    ensures !r.resizing && !r.listening && r.width == width
  {
    ResizeState(false, false, width)
  }

  /**
   * One event. A move is heard only through the window listener and, during a drag,
   * takes the pointer's x as the width only inside [280, 500]; it never clamps. A
   * release too is heard only through its listener.
   */
  function Step(s: ResizeState, e: ResizeEvent): (r: ResizeState)
    ensures e.MouseDown? ==> r == ResizeState(true, s.listening, s.width)
    ensures e.MouseUp? && s.listening ==> r == ResizeState(false, true, s.width)
    ensures e.MouseUp? && !s.listening ==> r == s
    ensures e.MouseMove? ==> r.resizing == s.resizing && r.listening == s.listening
    ensures e.MouseMove? && s.listening && s.resizing && InRange(e.clientX) ==> r.width == e.clientX
    ensures e.MouseMove? && !(s.listening && s.resizing && InRange(e.clientX)) ==> r.width == s.width
    ensures e.Render? ==> r == ResizeState(s.resizing, s.resizing, s.width)
  {
    match e
    case MouseDown => s.(resizing := true)
    case MouseUp => if s.listening then s.(resizing := false) else s
    case MouseMove(x) => if s.listening && s.resizing && MinWidth <= x && x <= MaxWidth then s.(width := x) else s
    case Render => s.(listening := s.resizing)
  }

  function Run(s: ResizeState, events: seq<ResizeEvent>): ResizeState
    decreases |events|
  {
    if |events| == 0 then s else Run(Step(s, events[0]), events[1..])
  }

  /** A width inside [280, 500] stays inside it under any events. */
  lemma {:induction false} RunKeepsRange(s: ResizeState, events: seq<ResizeEvent>)
    requires InRange(s.width)
    ensures InRange(Run(s, events).width)
    decreases |events|
  {
    if |events| > 0 {
      RunKeepsRange(Step(s, events[0]), events[1..]);
    }
  }

  /** From any width, after any events the width is either the starting one or inside [280, 500]. */
  lemma {:induction false} RunWidthOrigin(s: ResizeState, events: seq<ResizeEvent>)
    ensures Run(s, events).width == s.width || InRange(Run(s, events).width)
    decreases |events|
  {
    if |events| > 0 {
      var s1 := Step(s, events[0]);
      RunWidthOrigin(s1, events[1..]);
      if s1.width != s.width {
        RunKeepsRange(s1, events[1..]);
      }
    }
  }

  function Moves(xs: seq<int>): (ms: seq<ResizeEvent>)
    ensures |ms| == |xs|
    ensures forall i :: 0 <= i < |xs| ==> ms[i] == MouseMove(xs[i])
  {
    seq(|xs|, i requires 0 <= i < |xs| => MouseMove(xs[i]))
  }

  /** Pointer moves while not resizing never change anything. */
  lemma {:induction false} MovesWithoutPressIgnored(s: ResizeState, xs: seq<int>)
    requires !s.resizing
    ensures Run(s, Moves(xs)) == s
    decreases |xs|
  {
    if |xs| > 0 {
      assert Moves(xs)[1..] == Moves(xs[1..]);
      MovesWithoutPressIgnored(s, xs[1..]);
    }
  }

  /**
   * Until the sidebar re-renders, nothing reaches the width: without the listeners,
   * presses, moves and releases leave the width and the missing listeners as they were.
   * In particular the first drag after mounting does nothing.
   */
  lemma {:induction false} NoListenersNoResize(s: ResizeState, events: seq<ResizeEvent>)
    requires !s.listening
    requires forall i :: 0 <= i < |events| ==> !events[i].Render?
    ensures Run(s, events).width == s.width && !Run(s, events).listening
    ensures s.resizing ==> Run(s, events).resizing
    decreases |events|
  {
    if |events| > 0 {
      assert forall i :: 0 <= i < |events[1..]| ==> events[1..][i] == events[i + 1];
      NoListenersNoResize(Step(s, events[0]), events[1..]);
    }
  }

  /**
   * As written: press and release the handle, let anything re-render the sidebar (a
   * keystroke in the editor does), then move the pointer with no button held. The
   * release went unheard, so the move resizes the sidebar and the drag never ends.
   */
  lemma UnheardReleaseKeepsDragging(w: int, x: int)
    requires InRange(x)
    ensures Run(Mounted(w), [MouseDown, MouseUp, Render, MouseMove(x)]) == ResizeState(true, true, x)
  {
    var evs := [MouseDown, MouseUp, Render, MouseMove(x)];
    var s1 := ResizeState(true, false, w);   // pressed, no listeners
    var s3 := ResizeState(true, true, w);    // the release was lost; the render attaches
    assert Run(s3, [MouseMove(x)]) == ResizeState(true, true, x);
    assert evs[1..][1..] == [Render, MouseMove(x)] && [Render, MouseMove(x)][1..] == [MouseMove(x)];
    assert Run(s1, evs[1..][1..]) == Run(s3, [MouseMove(x)]);
    assert Run(s1, evs[1..]) == Run(s1, evs[1..][1..]);
    assert Run(Mounted(w), evs) == Run(s1, evs[1..]);
  }

  /** Corrected: the component re-renders after each pointer event (as with `isResizing` held in state), so the listeners are there exactly while resizing. */
  function CorrectedStep(s: ResizeState, e: ResizeEvent): (r: ResizeState)
    ensures r.listening == r.resizing
    ensures r.width == Step(s, e).width && r.resizing == Step(s, e).resizing
  {
    var t := Step(s, e);
    t.(listening := t.resizing)
  }

  function CorrectedRun(s: ResizeState, events: seq<ResizeEvent>): ResizeState
    decreases |events|
  {
    if |events| == 0 then s else CorrectedRun(CorrectedStep(s, events[0]), events[1..])
  }

  lemma {:induction false} CorrectedMovesIgnored(s: ResizeState, xs: seq<int>)
    requires !s.resizing && !s.listening
    ensures CorrectedRun(s, Moves(xs)) == s
    decreases |xs|
  {
    if |xs| > 0 {
      assert Moves(xs)[1..] == Moves(xs[1..]);
      CorrectedMovesIgnored(s, xs[1..]);
    }
  }

  /**
   * Corrected: from a state whose listeners match the drag, a press, a move inside
   * the range and a release set the width to the pointer, and later moves without
   * a press change nothing.
   */
  lemma {:induction false} CorrectedDragEndsAtRelease(s: ResizeState, x: int, xs: seq<int>)
    requires s.listening == s.resizing
    requires InRange(x)
    ensures CorrectedRun(s, [MouseDown, MouseMove(x), MouseUp] + Moves(xs)) == ResizeState(false, false, x)
  {
    var evs := [MouseDown, MouseMove(x), MouseUp] + Moves(xs);
    var s1 := CorrectedStep(s, MouseDown);
    var s2 := CorrectedStep(s1, MouseMove(x));
    var s3 := CorrectedStep(s2, MouseUp);
    assert s3 == ResizeState(false, false, x);
    assert evs[1..][1..][1..] == Moves(xs);
    CorrectedMovesIgnored(s3, xs);
    assert CorrectedRun(s2, evs[1..][1..]) == CorrectedRun(s3, Moves(xs));
    assert CorrectedRun(s1, evs[1..]) == CorrectedRun(s2, evs[1..][1..]);
    assert CorrectedRun(s, evs) == CorrectedRun(s1, evs[1..]);
  }

  /** The drag handle, the window listeners its effect keeps, and the width it sets. */
  class ResizeHandle {
    var isResizing: bool
    var listening: bool
    var width: int

    function State(): ResizeState
      reads this
    {
      ResizeState(isResizing, listening, width)
    }

    constructor(width: int)
      ensures State() == Mounted(width)
    {
      isResizing := false;
      listening := false;
      this.width := width;
    }

    /** `handleMouseDown`. */
    method MouseDown()
      modifies this
      ensures State() == Step(old(State()), ResizeEvent.MouseDown)
    {
      isResizing := true;
    }

    /** `handleMouseUp`, when its window listener is attached. */
    method MouseUp()
      modifies this
      ensures State() == Step(old(State()), ResizeEvent.MouseUp)
    {
      if listening {
        isResizing := false;
      }
    }

    /** `handleMouseMove`, when its window listener is attached. */
    method MouseMove(clientX: int)
      modifies this
      ensures State() == Step(old(State()), ResizeEvent.MouseMove(clientX))
    {
      if listening && isResizing {
        var newWidth := clientX;
        if newWidth >= MinWidth && newWidth <= MaxWidth {
          width := newWidth;
        }
      }
    }

    /** A render: the effect re-runs when `isResizing.current` differs from the last render's, removing the listeners and adding them back only while resizing. */
    method Render()
      modifies this
      ensures State() == Step(old(State()), ResizeEvent.Render)
    {
      if listening != isResizing {
        listening := isResizing;
      }
    }
  }

  // ---- form handlers ----

  /** `handleConfigChange(field, subField, value)`: a copy of the configuration with one leaf field replaced. */
  function HandleConfigChange(c: Config, f: ConfigField, v: FieldValue): (r: Config)
    requires Fits(f, v)
    ensures Get(r, f) == v
    ensures forall g :: g != f ==> Get(r, g) == Get(c, g)
  {
    match f
    case English => c.(fontFamily := c.fontFamily.(english := v.text))
    case Chinese => c.(fontFamily := c.fontFamily.(chinese := v.text))
    case H1 => c.(fontSize := c.fontSize.(h1 := v.number))
    case H2 => c.(fontSize := c.fontSize.(h2 := v.number))
    case H3 => c.(fontSize := c.fontSize.(h3 := v.number))
    case Body => c.(fontSize := c.fontSize.(body := v.number))
    case MarkdownBg => c.(colors := c.colors.(markdownBg := v.text))
    case WordBg => c.(colors := c.colors.(wordBg := v.text))
  }

  datatype Panel = MarkdownPanel | WordPanel

  function PanelField(panel: Panel): ConfigField
  {
    match panel
    case MarkdownPanel => MarkdownBg
    case WordPanel => WordBg
  }

  /** `handleColorChange(panel, value)`: only that panel's colour changes. */
  function HandleColorChange(c: Config, panel: Panel, v: string): (r: Config)
    ensures r.fontFamily == c.fontFamily && r.fontSize == c.fontSize
    ensures Get(r, PanelField(panel)) == Text(v)
    ensures forall g :: g != PanelField(panel) ==> Get(r, g) == Get(c, g)
  {
    match panel
    case MarkdownPanel => c.(colors := c.colors.(markdownBg := v))
    case WordPanel => c.(colors := c.colors.(wordBg := v))
  }

  /** The two colour handlers agree with the general one on the same field. */
  lemma ColorChangeIsConfigChange(c: Config, panel: Panel, v: string)
    ensures HandleColorChange(c, panel, v) == HandleConfigChange(c, PanelField(panel), Text(v))
  {
    var a, b := HandleColorChange(c, panel, v), HandleConfigChange(c, PanelField(panel), Text(v));
    forall g ensures Get(a, g) == Get(b, g) {
    }
    FieldsDetermineConfig(a, b);
  }

  /** An edit is undone by writing the old value back. */
  lemma ConfigChangeUndo(c: Config, f: ConfigField, v: FieldValue)
    requires Fits(f, v)
    ensures HandleConfigChange(HandleConfigChange(c, f, v), f, Get(c, f)) == c
  {
    var r := HandleConfigChange(HandleConfigChange(c, f, v), f, Get(c, f));
    forall g ensures Get(r, g) == Get(c, g) {
    }
    FieldsDetermineConfig(r, c);
  }

  /** The font-size inputs: `parseInt(e.target.value, 10) || 0` for the chosen size field. */
  function FontSizeInput(c: Config, f: ConfigField, input: string): (r: Config)
    requires !HoldsText(f)
    ensures Get(r, f) == Number(ParseIntOrZero(input))
    ensures ParseInt(input).None? ==> Get(r, f) == Number(0)
    ensures forall n: int :: input == IntToString(n) ==> Get(r, f) == Number(n)
    ensures forall g :: g != f ==> Get(r, g) == Get(c, g)
  {
    var n := ParseIntOrZero(input);
    assert forall m: int :: input == IntToString(m) ==> n == m by {
      forall m: int | input == IntToString(m) ensures n == m {
        ParseIntOfIntToString(m);
      }
    }
    HandleConfigChange(c, f, Number(n))
  }
}
