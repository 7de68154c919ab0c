/**
 * The resizable split between the editor pane and the preview pane.
 *
 * The page's handlers keep two closure variables (whether a drag is in
 * progress, and the left pane's share of the width at the last drag) and
 * write the two panes' widths and a few visual flags. The functions on
 * `Panes` below say what each handler leaves behind; class `SplitPane`
 * runs the handlers in place and is proved against them. Widths are reals:
 * the model is about the clamp and the sums, not about floating point.
 */
module Layout {

  /** A drag never makes the left pane narrower than this many CSS pixels,
      nor the right one when the container has room for both. */
  const MinWidth: real := 100.0
  /** The left pane's share of the available width before the first drag. */
  const InitialRatio: real := 0.5

  /** What a handler reads from the page at the moment it runs: the
      container's width and the divider's own width. */
  datatype Geometry = Geometry(total: real, divider: real)
  {
    /** The width the two panes share. */
    function Available(): real { total - divider }

    /** The container can hold both panes at their minimum beside the divider. */
    predicate Roomy() { total >= 2.0 * MinWidth + divider }
  }

  /** Everything the handlers read or write. `cursor` and `userSelect` are
      the page body's style properties; `hover` and `active` are the
      divider's classes. */
  datatype Panes = Panes(
    dragging: bool,
    lastLeftRatio: real,
    left: real,
    right: real,
    hover: bool,
    active: bool,
    cursor: string,
    userSelect: string)

  /** The state the page starts in, with the widths the stylesheet gave. */
  function Initial(left: real, right: real): Panes
  {
    Panes(false, InitialRatio, left, right, false, false, "", "")
  }

  /** The panes and the divider fill the container exactly. */
  predicate Fits(p: Panes, g: Geometry)
  {
    p.left + g.divider + p.right == g.total
  }

  function Max(a: real, b: real): real { if a >= b then a else b }
  function Min(a: real, b: real): real { if a <= b then a else b }

  /** Where a drag puts the left pane's edge: the pointer's offset, kept at
      least `MinWidth` from the left and, room permitting, from the right. */
  function ClampLeft(g: Geometry, offsetX: real): (w: real)
    ensures w >= MinWidth
    ensures g.Roomy() ==> w <= g.Available() - MinWidth
    ensures !g.Roomy() ==> w == MinWidth
    ensures MinWidth <= offsetX <= g.Available() - MinWidth ==> w == offsetX
    ensures offsetX <= MinWidth ==> w == MinWidth
    ensures g.Roomy() && offsetX >= g.Available() - MinWidth ==> w == g.Available() - MinWidth
  {
    var maxWidth := g.total - MinWidth - g.divider;
    Max(MinWidth, Min(offsetX, maxWidth))
  }

  /** Pointer enters the divider. */
  function MouseEnter(p: Panes): (r: Panes)
    ensures r.hover
    ensures r == p.(hover := r.hover)
  {
    p.(hover := true)
  }

  /** Pointer leaves the divider: the hover look stays while dragging. */
  function MouseLeave(p: Panes): (r: Panes)
    ensures p.dragging ==> r == p
    ensures !p.dragging ==> !r.hover && r == p.(hover := r.hover)
  {
    if p.dragging then p else p.(hover := false)
  }

  /** Button pressed on the divider: a drag starts. */
  function MouseDown(p: Panes): (r: Panes)
    ensures r.dragging && r.active && r.cursor == "col-resize"
    ensures r == p.(dragging := r.dragging, active := r.active, cursor := r.cursor)
  {
    p.(dragging := true, active := true, cursor := "col-resize")
  }

  /** Double click on the divider: both panes get half the available width.
      The stored ratio is left as it was. */
  function DoubleClick(p: Panes, g: Geometry): (r: Panes)
    ensures r.left == r.right
    ensures Fits(r, g)
    ensures r == p.(left := r.left, right := r.right)
  {
    var halfWidth := (g.total - g.divider) / 2.0;
    p.(left := halfWidth, right := halfWidth)
  }

  /** Pointer moves anywhere in the document, `offsetX` pixels from the
      container's left edge. Only a drag in progress reacts: it places the
      divider by `ClampLeft`, gives the right pane the rest, and records the
      left pane's share. */
  function MouseMove(p: Panes, g: Geometry, offsetX: real): (r: Panes)
    requires p.dragging ==> g.Available() != 0.0
    ensures !p.dragging ==> r == p
    ensures p.dragging ==> r.left == ClampLeft(g, offsetX)
    ensures p.dragging ==> Fits(r, g) && r.left >= MinWidth
    ensures p.dragging ==> r.lastLeftRatio * g.Available() == r.left
    ensures p.dragging && g.Roomy() ==> r.right >= MinWidth && 0.0 < r.lastLeftRatio < 1.0
    ensures p.dragging ==> r.userSelect == "none"
    ensures r == p.(left := r.left, right := r.right, lastLeftRatio := r.lastLeftRatio, userSelect := r.userSelect)
  {
    if !p.dragging then p
    else
      var leftWidth := ClampLeft(g, offsetX);
      var ratio := leftWidth / (g.total - g.divider);
      RatioBounds(leftWidth, g.Available(), ratio);
      p.(userSelect := "none",
         left := leftWidth,
         right := g.total - leftWidth - g.divider,
         lastLeftRatio := ratio)
  }

  /** Button released anywhere in the document: a drag ends and its visual
      state is cleared; without a drag nothing happens. */
  function MouseUp(p: Panes): (r: Panes)
    ensures !p.dragging ==> r == p
    ensures p.dragging ==> !r.dragging && !r.active && !r.hover
    ensures p.dragging ==> r.cursor == "default" && r.userSelect == ""
    ensures r == p.(dragging := r.dragging, active := r.active, hover := r.hover,
                    cursor := r.cursor, userSelect := r.userSelect)
  {
    if p.dragging then
      p.(dragging := false, active := false, hover := false, cursor := "default", userSelect := "")
    else p
  }

  /** Window resized: both widths are recomputed from the stored ratio
      alone, whatever they were before. */
  function Resize(p: Panes, g: Geometry): (r: Panes)
    ensures Fits(r, g)
    ensures r.left == g.Available() * p.lastLeftRatio
    ensures 0.0 <= p.lastLeftRatio <= 1.0 && g.Available() >= 0.0 ==> r.left >= 0.0 && r.right >= 0.0
    ensures r == p.(left := r.left, right := r.right)
  {
    var availableWidth := g.total - g.divider;
    p.(left := availableWidth * p.lastLeftRatio, right := availableWidth * (1.0 - p.lastLeftRatio))
  }

  /** `w / a` lies strictly between 0 and 1 when `w` does between 0 and `a`. */
  lemma RatioBounds(w: real, a: real, ratio: real)
    requires a != 0.0 && ratio == w / a
    ensures ratio * a == w
    ensures 0.0 < w < a ==> 0.0 < ratio < 1.0
  {
    if 0.0 < w < a {
      assert (1.0 - ratio) * a == a - w;
      PositiveFactor(ratio, a);
      PositiveFactor(1.0 - ratio, a);
    }
  }

  /** With a positive factor, a product is positive exactly when the other factor is. */
  lemma PositiveFactor(x: real, a: real)
    requires a > 0.0
    ensures x * a > 0.0 <==> x > 0.0
  {
  }

  /** The events the handlers react to, with what each reads from the page. */
  datatype Event =
    | EnterDivider
    | LeaveDivider
    | PressDivider
    | DoubleClickDivider(g: Geometry)
    | MovePointer(g: Geometry, offsetX: real)
    | ReleasePointer
    | ResizeWindow(g: Geometry)

  /** A pointer move that the model can evaluate: the page divides by the
      available width. */
  predicate Evaluable(e: Event)
  {
    e.MovePointer? ==> e.g.Available() != 0.0
  }

  function Step(p: Panes, e: Event): Panes
    requires Evaluable(e)
  {
    match e
    case EnterDivider => MouseEnter(p)
    case LeaveDivider => MouseLeave(p)
    case PressDivider => MouseDown(p)
    case DoubleClickDivider(g) => DoubleClick(p, g)
    case MovePointer(g, x) => MouseMove(p, g, x)
    case ReleasePointer => MouseUp(p)
    case ResizeWindow(g) => Resize(p, g)
  }

  /** The state after a sequence of events, delivered one at a time. */
  function Run(p: Panes, es: seq<Event>): Panes
    requires forall i :: 0 <= i < |es| ==> Evaluable(es[i])
    decreases |es|
  {
    if es == [] then p else Run(Step(p, es[0]), es[1..])
  }

  /** An event that reads `g` if it reads the page at all. */
  predicate At(e: Event, g: Geometry)
  {
    match e
    case DoubleClickDivider(h) => h == g
    case MovePointer(h, _) => h == g
    case ResizeWindow(h) => h == g
    case _ => true
  }

  /** The layout invariant for a container of fixed size: the panes fill it,
      neither is under the minimum, and the stored ratio would give both at
      least the minimum again on a resize. */
  predicate LaidOut(p: Panes, g: Geometry)
  {
    && Fits(p, g)
    && p.left >= MinWidth
    && p.right >= MinWidth
    && MinWidth <= g.Available() * p.lastLeftRatio <= g.Available() - MinWidth
  }

  /** The page's first state is laid out once the panes fill a roomy container. */
  lemma InitialLaidOut(left: real, right: real, g: Geometry)
    requires g.Roomy() && left == right && left + g.divider + right == g.total
    ensures LaidOut(Initial(left, right), g)
  {
  }

  /** One event at the container's own size keeps the layout invariant. */
  lemma StepKeepsLaidOut(p: Panes, g: Geometry, e: Event)
    requires g.Roomy() && At(e, g) && LaidOut(p, g)
    ensures Evaluable(e) && LaidOut(Step(p, e), g)
  {
    match e
    case ResizeWindow(_) => ResizeKeepsLaidOut(p, g);
    case MovePointer(_, x) => MoveKeepsLaidOut(p, g, x);
    case DoubleClickDivider(_) =>
    case _ =>
  }

  /** A resize to the same container size gives the panes the widths the
      stored ratio names, which the invariant keeps within bounds. */
  lemma ResizeKeepsLaidOut(p: Panes, g: Geometry)
    requires g.Roomy() && LaidOut(p, g)
    ensures LaidOut(Resize(p, g), g)
  {
    var a := g.Available();
    var r := Resize(p, g);
    assert a * (1.0 - p.lastLeftRatio) == a - a * p.lastLeftRatio;
    assert r.right == a - r.left;
  }

  /** A drag in a roomy container keeps both panes at the minimum or more,
      and records a ratio that gives them the same widths again. */
  lemma MoveKeepsLaidOut(p: Panes, g: Geometry, offsetX: real)
    requires g.Roomy() && LaidOut(p, g)
    ensures g.Available() != 0.0 && LaidOut(MouseMove(p, g, offsetX), g)
  {
    if p.dragging {
      var r := MouseMove(p, g, offsetX);
      assert g.Available() * r.lastLeftRatio == r.left;
    }
  }

  /** However the pointer is used, as long as the container keeps its size
      the panes fill it and neither drops under the minimum. */
  lemma {:induction false} RunKeepsLaidOut(p: Panes, g: Geometry, es: seq<Event>)
    requires g.Roomy() && LaidOut(p, g)
    requires forall i :: 0 <= i < |es| ==> At(es[i], g)
    ensures forall i :: 0 <= i < |es| ==> Evaluable(es[i])
    ensures LaidOut(Run(p, es), g)
    decreases |es|
  {
    forall i | 0 <= i < |es| ensures Evaluable(es[i]) {
      StepKeepsLaidOut(p, g, es[i]);
    }
    if es != [] {
      StepKeepsLaidOut(p, g, es[0]);
      RunKeepsLaidOut(Step(p, es[0]), g, es[1..]);
    }
  }

  /** A drag only ever records a share strictly between 0 and 1 when the
      container has room for both minimum panes; nothing else writes it. */
  lemma {:induction false} RunKeepsRatioProper(p: Panes, es: seq<Event>)
    requires 0.0 < p.lastLeftRatio < 1.0
    requires forall i :: 0 <= i < |es| ==> es[i].MovePointer? ==> es[i].g.Roomy()
    ensures forall i :: 0 <= i < |es| ==> Evaluable(es[i])
    ensures 0.0 < Run(p, es).lastLeftRatio < 1.0
    decreases |es|
  {
    if es != [] {
      var q := Step(p, es[0]);
      assert 0.0 < q.lastLeftRatio < 1.0;
      RunKeepsRatioProper(q, es[1..]);
    }
  }

  /** Only a drag changes the stored ratio: a run without pointer moves
      ends with the ratio it started with, double clicks included. */
  lemma {:induction false} RatioOnlyDragged(p: Panes, es: seq<Event>)
    requires forall i :: 0 <= i < |es| ==> !es[i].MovePointer?
    ensures forall i :: 0 <= i < |es| ==> Evaluable(es[i])
    ensures Run(p, es).lastLeftRatio == p.lastLeftRatio
    decreases |es|
  {
    if es != [] {
      RatioOnlyDragged(Step(p, es[0]), es[1..]);
    }
  }

  /** A resize after a double click restores the proportion of the last drag,
      not the halves the double click set. */
  lemma DoubleClickForgottenByResize(p: Panes, g1: Geometry, g2: Geometry)
    ensures Resize(DoubleClick(p, g1), g2) == Resize(p, g2)
  {
  }

  /** A drag to 30% of a 1000px container (10px divider), then a window grown
      to 1400px: the left pane gets 30% of the new available width. */
  lemma DragThenResizeKeepsProportion()
    ensures var g1, g2 := Geometry(1000.0, 10.0), Geometry(1400.0, 10.0);
            Resize(MouseMove(MouseDown(Initial(495.0, 495.0)), g1, 297.0), g2).left == 0.3 * 1390.0
  {
    var g1 := Geometry(1000.0, 10.0);
    var p := MouseMove(MouseDown(Initial(495.0, 495.0)), g1, 297.0);
    assert p.lastLeftRatio * 990.0 == 297.0;
  }

  /** A resize does not clamp: a pane dragged to the minimum in a wide window
      falls under it when the window shrinks. */
  lemma ShrinkingWindowUndercutsMinimum()
    ensures var g1, g2 := Geometry(1010.0, 10.0), Geometry(510.0, 10.0);
            Resize(MouseUp(MouseMove(MouseDown(Initial(500.0, 500.0)), g1, 40.0)), g2).left < MinWidth
  {
    var g1 := Geometry(1010.0, 10.0);
    var p := MouseMove(MouseDown(Initial(500.0, 500.0)), g1, 40.0);
    assert p.left == MinWidth;
    assert p.lastLeftRatio * 1000.0 == 100.0;
  }

  /** The divider's handlers, running on the page's own mutable state. */
  class SplitPane {
    var isDragging: bool
    var lastLeftRatio: real
    var leftWidth: real
    var rightWidth: real
    var hover: bool
    var active: bool
    var cursor: string
    var userSelect: string

    function State(): Panes
      reads this
    {
      Panes(isDragging, lastLeftRatio, leftWidth, rightWidth, hover, active, cursor, userSelect)
    }

    /** Installs the handlers over panes the stylesheet sized `left` and `right`. */
    constructor (left: real, right: real)
      ensures State() == Initial(left, right)
    {
      isDragging := false;
      lastLeftRatio := InitialRatio;
      leftWidth, rightWidth := left, right;
      hover, active := false, false;
      cursor, userSelect := "", "";
    }

    method OnMouseEnter()
      modifies this
      ensures State() == MouseEnter(old(State()))
    {
      hover := true;
    }

    method OnMouseLeave()
      modifies this
      ensures State() == MouseLeave(old(State()))
    {
      if !isDragging {
        hover := false;
      }
    }

    method OnMouseDown()
      modifies this
      ensures State() == MouseDown(old(State()))
    {
      isDragging := true;
      active := true;
      cursor := "col-resize";
    }

    method OnDoubleClick(g: Geometry)
      modifies this
      ensures State() == DoubleClick(old(State()), g)
    {
      var halfWidth := (g.total - g.divider) / 2.0;
      leftWidth := halfWidth;
      rightWidth := halfWidth;
    }

    /** `clientX` is the pointer's position in the viewport and
        `containerLeft` the container's left edge. */
    method OnMouseMove(g: Geometry, clientX: real, containerLeft: real)
      requires isDragging ==> g.Available() != 0.0
      modifies this
      ensures State() == MouseMove(old(State()), g, clientX - containerLeft)
    {
      if !isDragging {
        return;
      }
      userSelect := "none";
      var offsetX := clientX - containerLeft;
      var maxWidth := g.total - MinWidth - g.divider;
      var width := Max(MinWidth, Min(offsetX, maxWidth));
      leftWidth := width;
      rightWidth := g.total - width - g.divider;
      lastLeftRatio := width / (g.total - g.divider);
    }

    method OnMouseUp()
      modifies this
      ensures State() == MouseUp(old(State()))
    {
      if isDragging {
        isDragging := false;
        active := false;
        hover := false;
        cursor := "default";
        userSelect := "";
      }
    }

    method OnResize(g: Geometry)
      modifies this
      ensures State() == Resize(old(State()), g)
    {
      var availableWidth := g.total - g.divider;
      leftWidth := availableWidth * lastLeftRatio;
      rightWidth := availableWidth * (1.0 - lastLeftRatio);
    }
  }
}
