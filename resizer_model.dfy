/** The drag state machine of `SplitResizerComponent` as a value, its event
    handlers as functions, and the browser's delivery of document events to
    every handler registered so far. */
module ResizerModel {
  import opened Wrappers

  /** The narrowest left panel a drag can produce, in pixels. */
  const MinWidth: real := 200.0

  /** The widest left panel a drag can produce: 80% of `window.innerWidth`. */
  function MaxWidth(innerWidth: real): real {
    innerWidth * 0.8
  }

  function Min(a: real, b: real): real { if a <= b then a else b }
  function Max(a: real, b: real): real { if a >= b then a else b }

  /** `Math.max(minWidth, Math.min(width, maxWidth))`. */
  function Clamp(width: real, innerWidth: real): (r: real)
    ensures r >= MinWidth
    ensures MinWidth <= MaxWidth(innerWidth) ==> r <= MaxWidth(innerWidth)
    ensures MaxWidth(innerWidth) < MinWidth ==> r == MinWidth
    ensures MinWidth <= width <= MaxWidth(innerWidth) ==> r == width
    ensures width <= MinWidth ==> r == MinWidth
    ensures MinWidth <= MaxWidth(innerWidth) <= width ==> r == MaxWidth(innerWidth)
    ensures r == width || r == MinWidth || r == MaxWidth(innerWidth)
  {
    Max(MinWidth, Min(width, MaxWidth(innerWidth)))
  }

  /** The clamp never reverses the order of two widths. */
  lemma ClampMonotone(a: real, b: real, innerWidth: real)
    requires a <= b
    ensures Clamp(a, innerWidth) <= Clamp(b, innerWidth)
  {
  }

  /** Start width 400 in a 1000-pixel window: a drag of +10000 stops at 800,
      one of -10000 at 200. */
  lemma ClampExamples()
    ensures Clamp(400.0 + 10000.0, 1000.0) == 800.0
    ensures Clamp(400.0 - 10000.0, 1000.0) == 200.0
  {
  }

  /** The inline `flex` style of a panel. */
  datatype Flex = Unset | FlexNone | FlexGrow

  /** A sibling panel: its rendered width (`offsetWidth`) and its `flex` style. */
  datatype Panel = Panel(width: real, flex: Flex)

  /** The outputs `resizeStart`, `resizing` and `resizeEnd`. */
  datatype Event = ResizeStart | Resizing | ResizeEnd

  /** The component's fields, the number of document `mousemove`/`mouseup`
      handler pairs registered so far (never removed), and every event
      emitted so far, oldest first. */
  datatype ResizerState = ResizerState(
    isDragging: bool,
    startX: real,
    startLeftWidth: real,
    leftPanel: Option<Panel>,
    rightPanel: Option<Panel>,
    rafId: Option<nat>,
    listeners: nat,
    emitted: seq<Event>)

  /** How many times `e` was emitted in `log`. */
  function Count(e: Event, log: seq<Event>): nat {
    multiset(log)[e]
  }

  /** A drag in progress was started by a `resizeStart` not yet matched by a
      `resizeEnd`, and has its document handlers registered. */
  predicate Consistent(s: ResizerState) {
    Count(ResizeEnd, s.emitted) + (if s.isDragging then 1 else 0) <= Count(ResizeStart, s.emitted)
    && (s.isDragging ==> s.listeners > 0)
  }

  /** The component as constructed: not dragging, a zero drag origin, no
      panels found yet, no frame requested, no document handlers registered
      and nothing emitted. */
  function Initial(): (s: ResizerState)
    ensures Consistent(s) && !s.isDragging && s.rafId.None? && s.emitted == []
    ensures s.startX == 0.0 && s.startLeftWidth == 0.0
    ensures s.leftPanel.None? && s.rightPanel.None? && s.listeners == 0
  {
    ResizerState(false, 0.0, 0.0, None, None, None, 0, [])
  }

  /** What `ngAfterViewInit` finds: the first and third children of the
      component's parent element, when there is a parent. */
  datatype Siblings = Siblings(left: Option<Panel>, right: Option<Panel>)

  function AfterViewInit(s: ResizerState, parent: Option<Siblings>): (r: ResizerState)
    ensures parent.None? ==> r == s
    ensures parent.Some? ==> r == s.(leftPanel := parent.value.left, rightPanel := parent.value.right)
  {
    if parent.Some? then s.(leftPanel := parent.value.left, rightPanel := parent.value.right)
    else s
  }

  /** `onMouseDown`: a drag starts at `clientX` from the left panel's current
      width (or from the previous start width when there is no left panel),
      `resizeStart` is emitted, and one more pair of document handlers is
      registered. */
  function MouseDown(s: ResizerState, clientX: real): (r: ResizerState)
    ensures Consistent(s) ==> Consistent(r)
    ensures r.isDragging && r.startX == clientX
    ensures r.startLeftWidth == (if s.leftPanel.Some? then s.leftPanel.value.width else s.startLeftWidth)
    ensures r.emitted == s.emitted + [ResizeStart] && r.listeners == s.listeners + 1
    ensures r.leftPanel == s.leftPanel && r.rightPanel == s.rightPanel && r.rafId == s.rafId
  {
    s.(isDragging := true, startX := clientX,
       startLeftWidth := if s.leftPanel.Some? then s.leftPanel.value.width else s.startLeftWidth,
       emitted := s.emitted + [ResizeStart], listeners := s.listeners + 1)
  }

  /** The width a move to `clientX` gives the left panel. */
  function DraggedWidth(s: ResizerState, clientX: real, innerWidth: real): real {
    Clamp(s.startLeftWidth + (clientX - s.startX), innerWidth)
  }

  /** `onMouseMove`: ignored unless dragging; otherwise the left panel gets the
      clamped width and `flex: none`, the right panel `flex: 1`, and when no
      frame callback is pending one is requested (`frame` is the id
      `requestAnimationFrame` returns). Nothing is emitted here. */
  function MouseMove(s: ResizerState, clientX: real, innerWidth: real, frame: nat): (r: ResizerState)
    ensures !s.isDragging ==> r == s
    ensures Consistent(s) ==> Consistent(r)
    ensures r.isDragging == s.isDragging && r.startX == s.startX && r.startLeftWidth == s.startLeftWidth
    ensures r.emitted == s.emitted && r.listeners == s.listeners
    ensures s.isDragging ==> r.rafId == (if s.rafId.Some? then s.rafId else Some(frame))
    ensures s.isDragging && s.leftPanel.Some? ==>
              r.leftPanel == Some(Panel(DraggedWidth(s, clientX, innerWidth), FlexNone))
    ensures s.leftPanel.None? ==> r.leftPanel.None?
    ensures s.isDragging && s.rightPanel.Some? ==> r.rightPanel == Some(s.rightPanel.value.(flex := FlexGrow))
    ensures s.rightPanel.None? ==> r.rightPanel.None?
  {
    if !s.isDragging then s
    else
      var w := DraggedWidth(s, clientX, innerWidth);
      s.(leftPanel := if s.leftPanel.Some? then Some(Panel(w, FlexNone)) else None,
         rightPanel := if s.rightPanel.Some? then Some(s.rightPanel.value.(flex := FlexGrow)) else None,
         rafId := if s.rafId.None? then Some(frame) else s.rafId)
  }

  /** The frame callback: `resizing` is emitted once and the request is
      cleared. It runs whether or not the drag is still going on. */
  function FrameCallback(s: ResizerState): (r: ResizerState)
    requires s.rafId.Some?
    ensures Consistent(s) ==> Consistent(r)
    ensures r.rafId.None? && r.emitted == s.emitted + [Resizing]
    ensures r == s.(rafId := None, emitted := r.emitted)
  {
    s.(rafId := None, emitted := s.emitted + [Resizing])
  }

  /** `onMouseUp`: ignored unless dragging; otherwise the drag ends and
      `resizeEnd` is emitted. */
  function MouseUp(s: ResizerState): (r: ResizerState)
    ensures !s.isDragging ==> r == s
    ensures Consistent(s) ==> Consistent(r)
    ensures !r.isDragging
    ensures s.isDragging ==> r.emitted == s.emitted + [ResizeEnd]
    ensures r == s.(isDragging := false, emitted := r.emitted)
  {
    if !s.isDragging then s
    else s.(isDragging := false, emitted := s.emitted + [ResizeEnd])
  }

  /** Every width a move writes lies in [200, 0.8 * innerWidth] whenever that
      range is not empty, and is 200 otherwise. */
  lemma MoveWidthBounds(s: ResizerState, clientX: real, innerWidth: real, frame: nat)
    requires s.isDragging && s.leftPanel.Some?
    ensures var w := MouseMove(s, clientX, innerWidth, frame).leftPanel.value.width;
            w >= MinWidth
            && (MinWidth <= MaxWidth(innerWidth) ==> w <= MaxWidth(innerWidth))
            && (var target := s.startLeftWidth + (clientX - s.startX);
                MinWidth <= target <= MaxWidth(innerWidth) ==> w == target)
  {
  }

  /** A move handled a second time changes nothing more. */
  lemma MouseMoveIdempotent(s: ResizerState, clientX: real, innerWidth: real, frame: nat, frame': nat)
    ensures MouseMove(MouseMove(s, clientX, innerWidth, frame), clientX, innerWidth, frame')
         == MouseMove(s, clientX, innerWidth, frame)
  {
  }

  /** A second mouse-up is a no-op. */
  lemma MouseUpIdempotent(s: ResizerState)
    ensures MouseUp(MouseUp(s)) == MouseUp(s)
  {
  }

  /** The browser calls each of the `n` registered `mousemove` handlers in turn. */
  function DispatchMove(s: ResizerState, n: nat, clientX: real, innerWidth: real, frame: nat): ResizerState
    decreases n
  {
    if n == 0 then s else DispatchMove(MouseMove(s, clientX, innerWidth, frame), n - 1, clientX, innerWidth, frame)
  }

  /** The browser calls each of the `n` registered `mouseup` handlers in turn. */
  function DispatchUp(s: ResizerState, n: nat): ResizerState
    decreases n
  {
    if n == 0 then s else DispatchUp(MouseUp(s), n - 1)
  }

  /** Handlers pile up, one pair per drag, but the `isDragging` and `rafId`
      guards make any number of them act like one. */
  lemma {:induction false} DispatchMoveActsOnce(s: ResizerState, n: nat, clientX: real, innerWidth: real, frame: nat)
    requires n >= 1
    ensures DispatchMove(s, n, clientX, innerWidth, frame) == MouseMove(s, clientX, innerWidth, frame)
    decreases n
  {
    if n > 1 {
      var t := MouseMove(s, clientX, innerWidth, frame);
      DispatchMoveActsOnce(t, n - 1, clientX, innerWidth, frame);
      MouseMoveIdempotent(s, clientX, innerWidth, frame, frame);
    }
  }

  lemma {:induction false} DispatchUpActsOnce(s: ResizerState, n: nat)
    requires n >= 1
    ensures DispatchUp(s, n) == MouseUp(s)
    decreases n
  {
    if n > 1 {
      DispatchUpActsOnce(MouseUp(s), n - 1);
      MouseUpIdempotent(s);
    }
  }

  /** What reaches the component: a mouse-down on the divider, a mouse move or
      a mouse release anywhere in the document, or a display refresh, at which
      a pending frame callback runs. */
  datatype Input =
    | Down(clientX: real)
    | Move(clientX: real, innerWidth: real, frame: nat)
    | Up
    | Refresh

  function Step(s: ResizerState, i: Input): ResizerState {
    match i
    case Down(x) => MouseDown(s, x)
    case Move(x, w, f) => DispatchMove(s, s.listeners, x, w, f)
    case Up => DispatchUp(s, s.listeners)
    case Refresh => if s.rafId.Some? then FrameCallback(s) else s
  }

  function Run(s: ResizerState, inputs: seq<Input>): ResizerState
    decreases |inputs|
  {
    if inputs == [] then s else Run(Step(s, inputs[0]), inputs[1..])
  }

  function Pending(s: ResizerState): nat {
    if s.rafId.Some? then 1 else 0
  }

  /** How many inputs of `inputs` are refreshes, and how many are moves. */
  function Refreshes(inputs: seq<Input>): nat
    decreases |inputs|
  {
    if inputs == [] then 0 else (if inputs[0].Refresh? then 1 else 0) + Refreshes(inputs[1..])
  }

  function Moves(inputs: seq<Input>): nat
    decreases |inputs|
  {
    if inputs == [] then 0 else (if inputs[0].Move? then 1 else 0) + Moves(inputs[1..])
  }

  /** One input: a move or a release delivered to any number of handlers
      acts as one handler would. */
  lemma StepActsOnce(s: ResizerState, i: Input)
    ensures i.Move? && s.listeners > 0 ==> Step(s, i) == MouseMove(s, i.clientX, i.innerWidth, i.frame)
    ensures i.Move? && s.listeners == 0 ==> Step(s, i) == s
    ensures i.Up? && s.listeners > 0 ==> Step(s, i) == MouseUp(s)
    ensures i.Up? && s.listeners == 0 ==> Step(s, i) == s
  {
    if i.Move? && s.listeners > 0 {
      DispatchMoveActsOnce(s, s.listeners, i.clientX, i.innerWidth, i.frame);
    }
    if i.Up? && s.listeners > 0 {
      DispatchUpActsOnce(s, s.listeners);
    }
  }

  /** The throttle, for one input: only a refresh emits `resizing`, at most
      once, and only a move requests a frame; at most one request is ever
      pending. */
  lemma StepThrottle(s: ResizerState, i: Input)
    ensures Count(Resizing, Step(s, i).emitted) <= Count(Resizing, s.emitted) + (if i.Refresh? then 1 else 0)
    ensures Count(Resizing, Step(s, i).emitted) + Pending(Step(s, i))
         <= Count(Resizing, s.emitted) + Pending(s) + (if i.Move? then 1 else 0)
    ensures Consistent(s) ==> Consistent(Step(s, i))
  {
    StepActsOnce(s, i);
  }

  /** The throttle over any run: `resizing` is emitted at most once per display
      refresh, and never more often than moves requested it. */
  lemma {:induction false} RunThrottle(s: ResizerState, inputs: seq<Input>)
    ensures Count(Resizing, Run(s, inputs).emitted) <= Count(Resizing, s.emitted) + Refreshes(inputs)
    ensures Count(Resizing, Run(s, inputs).emitted) + Pending(Run(s, inputs))
         <= Count(Resizing, s.emitted) + Pending(s) + Moves(inputs)
    decreases |inputs|
  {
    if inputs != [] {
      StepThrottle(s, inputs[0]);
      RunThrottle(Step(s, inputs[0]), inputs[1..]);
    }
  }

  /** Over any run, every `resizeEnd` answers an earlier `resizeStart`. */
  lemma {:induction false} RunKeepsConsistent(s: ResizerState, inputs: seq<Input>)
    requires Consistent(s)
    ensures Consistent(Run(s, inputs))
    ensures Count(ResizeEnd, Run(s, inputs).emitted) <= Count(ResizeStart, Run(s, inputs).emitted)
    decreases |inputs|
  {
    if inputs != [] {
      StepThrottle(s, inputs[0]);
      RunKeepsConsistent(Step(s, inputs[0]), inputs[1..]);
    }
  }

  /** Only a mouse-down writes the drag origin: moves, releases and refreshes
      leave `startX` and `startLeftWidth` as they were. */
  lemma {:induction false} RunWithoutDownKeepsOrigin(s: ResizerState, inputs: seq<Input>)
    requires forall k :: 0 <= k < |inputs| ==> !inputs[k].Down?
    ensures Run(s, inputs).startX == s.startX && Run(s, inputs).startLeftWidth == s.startLeftWidth
    decreases |inputs|
  {
    if inputs != [] {
      StepActsOnce(s, inputs[0]);
      RunWithoutDownKeepsOrigin(Step(s, inputs[0]), inputs[1..]);
    }
  }

  /** A drag from a 400-pixel left panel in a 1000-pixel window: pressing at
      x = 500 and moving to x = 10500 gives the panel 800 pixels, moving to
      x = -9500 gives it 200. */
  lemma DragExample(right: Option<Panel>, frame: nat)
    ensures var s := MouseDown(Initial().(leftPanel := Some(Panel(400.0, Unset)), rightPanel := right), 500.0);
            MouseMove(s, 10500.0, 1000.0, frame).leftPanel == Some(Panel(800.0, FlexNone))
            && MouseMove(s, -9500.0, 1000.0, frame).leftPanel == Some(Panel(200.0, FlexNone))
  {
  }
}
