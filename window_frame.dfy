/**
 * The floating window (`WindowFrame`): title-bar dragging, a button row that
 * never starts a drag, minimize and maximize as two independent flags, and
 * the focus / close callbacks it hands to its host.
 *
 * `Step` is the transition function of one window; the class `Window` holds
 * the same state in fields and its handlers are proved to follow `Step`.
 */
module WindowFrame {

  datatype Point = Point(x: int, y: int)
  datatype Size = Size(width: int, height: int)

  const DefaultPosition := Point(0, 0)
  const DefaultSize := Size(500, 400)
  const DefaultZIndex := 1000

  datatype WindowState = WindowState(
    position: Point,
    size: Size,
    isMinimized: bool,
    isMaximized: bool,
    isDragging: bool,
    dragOffset: Point,
    minimizable: bool,
    maximizable: bool)

  /**
   * The events a window reacts to. `onNoDrag` says the mouse-down target lies
   * inside the `[data-no-drag]` button row. A button click bubbles up to the
   * frame's own click handler, as does any other click on the frame.
   */
  datatype Event =
    | TitleMouseDown(pointer: Point, onNoDrag: bool)
    | MouseMove(pointer: Point)
    | MouseUp
    | TitleDoubleClick
    | MinimizeClick
    | MaximizeClick
    | CloseClick
    | FrameClick

  /** Calls the window makes into its host: `onFocus()` and `onClose()`. */
  datatype Request = Focus | Close

  function Initial(position: Point, size: Size, minimizable: bool, maximizable: bool): WindowState
  {
    WindowState(position, size, false, false, false, Point(0, 0), minimizable, maximizable)
  }

  /** The minimize and maximize buttons exist only when the window allows them. */
  predicate Rendered(s: WindowState, e: Event)
  {
    (e.MinimizeClick? ==> s.minimizable) && (e.MaximizeClick? ==> s.maximizable)
  }

  /** One event: the new window state and the callbacks fired, in order. */
  function Step(s: WindowState, e: Event): (WindowState, seq<Request>)
    requires Rendered(s, e)
  {
    match e
    case TitleMouseDown(p, onNoDrag) =>
      if onNoDrag then (s, [])
      else (s.(isDragging := true, dragOffset := Point(p.x - s.position.x, p.y - s.position.y)), [Focus])
    case MouseMove(p) =>
      // the document listeners are attached only while dragging
      if s.isDragging then (s.(position := Point(p.x - s.dragOffset.x, p.y - s.dragOffset.y)), [])
      else (s, [])
    case MouseUp => (s.(isDragging := false), [])
    case TitleDoubleClick =>
      if s.maximizable then (s.(isMaximized := !s.isMaximized), []) else (s, [])
    case MinimizeClick => (s.(isMinimized := !s.isMinimized), [Focus])
    case MaximizeClick => (s.(isMaximized := !s.isMaximized), [Focus])
    case CloseClick => (s, [Close, Focus])
    case FrameClick => (s, [Focus])
  }

  predicate AllRendered(s: WindowState, es: seq<Event>)
  {
    forall i :: 0 <= i < |es| ==> Rendered(s, es[i])
  }

  /** The state after a sequence of events. */
  function Run(s: WindowState, es: seq<Event>): (r: WindowState)
    requires AllRendered(s, es)
    ensures r.minimizable == s.minimizable && r.maximizable == s.maximizable
    decreases |es|
  {
    if |es| == 0 then s else Run(Step(s, es[0]).0, es[1..])
  }

  // ---------------------------------------------------------------------------
  // Layout (the `style` of the frame)
  // ---------------------------------------------------------------------------

  datatype Length = Px(n: int) | Full | Auto

  datatype Layout = Layout(left: Length, top: Length, width: Length, height: Length)

  function LayoutOf(s: WindowState): (l: Layout)
    ensures s.isMaximized ==> l == Layout(Px(0), Px(0), Full, Full)
    ensures !s.isMaximized ==> l.left == Px(s.position.x) && l.top == Px(s.position.y) && l.width == Px(s.size.width)
    ensures !s.isMaximized ==> l.height == if s.isMinimized then Auto else Px(s.size.height)
  {
    Layout(
      if s.isMaximized then Px(0) else Px(s.position.x),
      if s.isMaximized then Px(0) else Px(s.position.y),
      if s.isMaximized then Full else Px(s.size.width),
      if s.isMaximized then Full else if s.isMinimized then Auto else Px(s.size.height))
  }

  /** The content area is mounted exactly when the window is not minimized. */
  predicate ContentRendered(s: WindowState)
  {
    !s.isMinimized
  }

  // ---------------------------------------------------------------------------
  // Properties of single steps
  // ---------------------------------------------------------------------------

  /** A mouse-down outside the button row starts a drag, records pointer minus position and asks for focus; inside it nothing happens. */
  lemma MouseDownStartsDrag(s: WindowState, p: Point, onNoDrag: bool)
    ensures var (t, reqs) := Step(s, TitleMouseDown(p, onNoDrag));
      (onNoDrag ==> t == s && reqs == [])
      && (!onNoDrag ==> t.isDragging && t.dragOffset == Point(p.x - s.position.x, p.y - s.position.y)
                        && t.position == s.position && reqs == [Focus])
  {
  }

  /** The double click toggles maximize only on a maximizable window; the button toggles whenever it exists. */
  lemma MaximizeToggles(s: WindowState)
    requires s.maximizable
    ensures Step(s, TitleDoubleClick).0.isMaximized == !s.isMaximized
    ensures Step(s, MaximizeClick).0.isMaximized == !s.isMaximized
    ensures Step(s.(maximizable := false), TitleDoubleClick).0 == s.(maximizable := false)
  {
  }

  // ---------------------------------------------------------------------------
  // Properties of runs
  // ---------------------------------------------------------------------------

  predicate AllMoves(es: seq<Event>)
  {
    forall i :: 0 <= i < |es| ==> es[i].MouseMove?
  }

  /** Only dragging moves the window, and nothing ever changes its size. */
  lemma {:induction false} SizeNeverChanges(s: WindowState, es: seq<Event>)
    requires AllRendered(s, es)
    ensures Run(s, es).size == s.size
    decreases |es|
  {
    if |es| > 0 {
      var t := Step(s, es[0]).0;
      assert AllRendered(t, es[1..]) by {
        forall i | 0 <= i < |es[1..]| ensures Rendered(t, es[1..][i]) {
          assert Rendered(s, es[i + 1]);
        }
      }
      SizeNeverChanges(t, es[1..]);
    }
  }

  /** While dragging, a run of moves puts the window at the last pointer minus the drag offset. */
  lemma {:induction false} MovesFollowPointer(s: WindowState, es: seq<Event>)
    requires s.isDragging && AllMoves(es) && |es| > 0
    ensures Run(s, es).isDragging
    ensures Run(s, es).dragOffset == s.dragOffset
    ensures Run(s, es).position == Point(es[|es| - 1].pointer.x - s.dragOffset.x, es[|es| - 1].pointer.y - s.dragOffset.y)
    decreases |es|
  {
    var t := Step(s, es[0]).0;
    if |es| > 1 {
      MovesFollowPointer(t, es[1..]);
    }
  }

  /**
   * A drag started at pointer p0 and moved to p1 displaces the window by
   * exactly p1 - p0: the offset is kept, not recomputed.
   */
  lemma DragMovesByPointerDelta(s: WindowState, p0: Point, moves: seq<Event>)
    requires AllMoves(moves) && |moves| > 0
    ensures var p1 := moves[|moves| - 1].pointer;
      Run(s, [TitleMouseDown(p0, false)] + moves).position
        == Point(s.position.x + (p1.x - p0.x), s.position.y + (p1.y - p0.y))
  {
    var es := [TitleMouseDown(p0, false)] + moves;
    assert es[1..] == moves;
    var t := Step(s, TitleMouseDown(p0, false)).0;
    MovesFollowPointer(t, moves);
  }

  /** After a mouse-up, pointer moves no longer move the window. */
  lemma {:induction false} MovesAfterMouseUpAreInert(s: WindowState, es: seq<Event>)
    requires !s.isDragging && AllMoves(es)
    ensures Run(s, es) == s
    decreases |es|
  {
    if |es| > 0 {
      MovesAfterMouseUpAreInert(s, es[1..]);
    }
  }

  /** Minimize and maximize are independent: both can be set at once, and then the maximized full-height layout wins while the content stays unmounted. */
  lemma MinimizedAndMaximizedTogether(p: Point, z: Size)
    ensures var s := Run(Initial(p, z, true, true), [MinimizeClick, MaximizeClick]);
      s.isMinimized && s.isMaximized && !ContentRendered(s)
      && LayoutOf(s).height == Full && LayoutOf(s).width == Full
  {
    var s0 := Initial(p, z, true, true);
    var s1 := Step(s0, MinimizeClick).0;
    var s2 := Step(s1, MaximizeClick).0;
    assert [MinimizeClick, MaximizeClick][1..] == [MaximizeClick];
    assert Run(s0, [MinimizeClick, MaximizeClick]) == Run(s1, [MaximizeClick]);
    assert Run(s1, [MaximizeClick]) == Run(s2, []);
  }

  /** Maximizing and restoring gives back exactly the layout the window had before. */
  lemma MaximizeTwiceRestoresLayout(s: WindowState)
    requires s.maximizable
    ensures var es := [MaximizeClick, MaximizeClick];
      Run(s, es) == s && LayoutOf(Run(s, es)) == LayoutOf(s)
  {
    var es := [MaximizeClick, MaximizeClick];
    var s1 := Step(s, MaximizeClick).0;
    assert es[1..] == [MaximizeClick];
    assert Run(s, es) == Run(s1, [MaximizeClick]);
    assert Run(s1, [MaximizeClick]) == Run(Step(s1, MaximizeClick).0, []);
  }

  // ---------------------------------------------------------------------------
  // The component, with its state in fields
  // ---------------------------------------------------------------------------

  class Window {
    var position: Point
    const size: Size
    var isMinimized: bool
    var isMaximized: bool
    var isDragging: bool
    var dragOffset: Point
    const minimizable: bool
    const maximizable: bool

    function State(): WindowState
      reads this
    {
      WindowState(position, size, isMinimized, isMaximized, isDragging, dragOffset, minimizable, maximizable)
    }

    constructor (initialPosition: Point, initialSize: Size, minimizable: bool, maximizable: bool)
      ensures State() == Initial(initialPosition, initialSize, minimizable, maximizable)
    {
      position := initialPosition;
      size := initialSize;
      isMinimized := false;
      isMaximized := false;
      isDragging := false;
      dragOffset := Point(0, 0);
      this.minimizable := minimizable;
      this.maximizable := maximizable;
    }

    /** `handleMouseDown` on the title bar. */
    method HandleMouseDown(pointer: Point, onNoDrag: bool) returns (requests: seq<Request>)
      modifies this
      ensures (State(), requests) == Step(old(State()), TitleMouseDown(pointer, onNoDrag))
    {
      if onNoDrag {
        return [];
      }
      isDragging := true;
      dragOffset := Point(pointer.x - position.x, pointer.y - position.y);
      requests := [Focus];
    }

    /** The document `mousemove` listener, attached while dragging. */
    method HandleMouseMove(pointer: Point)
      modifies this
      ensures State() == Step(old(State()), MouseMove(pointer)).0
    {
      if !isDragging {
        return;
      }
      position := Point(pointer.x - dragOffset.x, pointer.y - dragOffset.y);
    }

    /** The document `mouseup` listener. */
    method HandleMouseUp()
      modifies this
      ensures State() == Step(old(State()), MouseUp).0
      ensures !isDragging
    {
      isDragging := false;
    }

    /** `handleDoubleClick` on the title bar. */
    method HandleDoubleClick()
      modifies this
      ensures State() == Step(old(State()), TitleDoubleClick).0
    {
      if maximizable {
        isMaximized := !isMaximized;
      }
    }

    /** The minimize button; its click then reaches the frame's `onClick`. */
    method ClickMinimize() returns (requests: seq<Request>)
      requires minimizable
      modifies this
      ensures (State(), requests) == Step(old(State()), MinimizeClick)
    {
      isMinimized := !isMinimized;
      requests := [Focus];
    }

    /** The maximize button; its click then reaches the frame's `onClick`. */
    method ClickMaximize() returns (requests: seq<Request>)
      requires maximizable
      modifies this
      ensures (State(), requests) == Step(old(State()), MaximizeClick)
    {
      isMaximized := !isMaximized;
      requests := [Focus];
    }

    /** The close button calls `onClose`, then the click reaches the frame's `onClick`. */
    method ClickClose() returns (requests: seq<Request>)
      ensures (State(), requests) == Step(State(), CloseClick)
    {
      requests := [Close, Focus];
    }

    /** Any other click on the frame calls `onFocus`. */
    method ClickFrame() returns (requests: seq<Request>)
      ensures (State(), requests) == Step(State(), FrameClick)
    {
      requests := [Focus];
    }
  }
}
