/**
 * Scroll logic of the EasyGUI list-container widget.
 *
 * The first half of the module is the specification layer: child geometry,
 * the far-extent running maximum, the scroll limit, the per-axis drag rule
 * and a value view (Scroll) of the widget's scroll state, with the lemmas
 * that say what these promise. The second half is the widget itself, a
 * class whose fields the callbacks update in place and whose methods are
 * proved against the functions of the first half.
 */
module GuiListContainer {

  // ---------------------------------------------------------------------
  // Geometry of the children
  // ---------------------------------------------------------------------

  /** A child's rectangle, relative to the container's content origin. */
  datatype Rect = Rect(x: int, y: int, width: int, height: int)

  datatype Axis = X | Y

  /** The child's far edge on an axis: its right edge on X, its bottom edge on Y. */
  function FarEdge(r: Rect, axis: Axis): (e: int) {
    match axis
    case X => r.x + r.width
    case Y => r.y + r.height
  }

  /**
   * The farthest edge reached by any child on an axis, starting from 0 and
   * taking the children in list order: the accumulator `cmx` (or `cmy`) of
   * the scan. It is the least non-negative bound of all far edges.
   */
  function FarExtent(children: seq<Rect>, axis: Axis): (m: int)
    ensures 0 <= m
    ensures forall i :: 0 <= i < |children| ==> FarEdge(children[i], axis) <= m
    ensures m == 0 || exists i :: 0 <= i < |children| && FarEdge(children[i], axis) == m
  {
    if children == [] then 0
    else
      var m0 := FarExtent(children[..|children| - 1], axis);
      var e := FarEdge(children[|children| - 1], axis);
      if e > m0 then e else m0
  }

  /** Every value that is a least non-negative bound of the far edges is FarExtent. */
  lemma FarExtentUnique(children: seq<Rect>, axis: Axis, m: int)
    requires 0 <= m
    requires forall i :: 0 <= i < |children| ==> FarEdge(children[i], axis) <= m
    requires m == 0 || exists i :: 0 <= i < |children| && FarEdge(children[i], axis) == m
    ensures m == FarExtent(children, axis)
  {
  }

  /** A list whose children all occur in another list reaches no farther than it. */
  lemma FarExtentMonotone(children: seq<Rect>, more: seq<Rect>, axis: Axis)
    requires forall i :: 0 <= i < |children| ==> children[i] in more
    ensures FarExtent(children, axis) <= FarExtent(more, axis)
  {
  }

  /** The far extent does not depend on the order of the children. */
  lemma {:induction false} FarExtentPermutation(children: seq<Rect>, reordered: seq<Rect>, axis: Axis)
    requires multiset(children) == multiset(reordered)
    ensures FarExtent(children, axis) == FarExtent(reordered, axis)
  {
    forall i | 0 <= i < |children| ensures children[i] in reordered {
      assert children[i] in multiset(children);
    }
    forall i | 0 <= i < |reordered| ensures reordered[i] in children {
      assert reordered[i] in multiset(reordered);
    }
    FarExtentMonotone(children, reordered, axis);
    FarExtentMonotone(reordered, children, axis);
  }

  // ---------------------------------------------------------------------
  // Scroll limit and the two per-axis offset rules
  // ---------------------------------------------------------------------

  /**
   * The scroll limit on one axis for a content extent `far` and a viewport of
   * size `inner`: the least non-negative offset at which the viewport reaches
   * the far extent.
   */
  function MaxScroll(far: int, inner: int): (m: int)
    ensures 0 <= m
    ensures far <= inner + m
    ensures m == 0 || inner + m == far
  {
    if inner < far then far - inner else 0
  }

  lemma MaxScrollMonotone(far: int, farther: int, inner: int)
    requires far <= farther
    ensures MaxScroll(far, inner) <= MaxScroll(farther, inner)
  {
  }

  /** An offset lowered to a limit: left alone within it, set to it above it. */
  function LowerTo(offset: int, limit: int): (r: int)
    ensures r <= limit
    ensures r <= offset
    ensures r == offset || r == limit
  {
    if offset > limit then limit else offset
  }

  /**
   * One axis of a drag: when the axis is enabled the delta is added and the
   * result is floored at 0; when it is not, the offset is left alone.
   */
  function DragAxis(offset: int, delta: int, enabled: bool): (r: int)
    ensures !enabled ==> r == offset
    ensures enabled ==> 0 <= r && offset + delta <= r
    ensures enabled ==> r == 0 || r == offset + delta
  {
    if !enabled then offset
    else if offset + delta < 0 then 0
    else offset + delta
  }

  // ---------------------------------------------------------------------
  // Value view of the scroll state
  // ---------------------------------------------------------------------

  /** Scroll offsets and scroll limits of a container. */
  datatype Scroll = Scroll(x: int, y: int, maxX: int, maxY: int)

  /** Both offsets lie between 0 and their limits. */
  predicate InBounds(s: Scroll) {
    0 <= s.x <= s.maxX && 0 <= s.y <= s.maxY
  }

  /** The state after one pass of the limit calculator. */
  function Recalculated(s: Scroll, children: seq<Rect>, innerWidth: int, innerHeight: int): (t: Scroll)
    ensures 0 <= t.maxX && 0 <= t.maxY
    ensures t.x <= t.maxX && t.y <= t.maxY
    ensures s.x <= t.maxX ==> t.x == s.x
    ensures s.y <= t.maxY ==> t.y == s.y
    ensures s.x > t.maxX ==> t.x == t.maxX
    ensures s.y > t.maxY ==> t.y == t.maxY
  {
    var maxX := MaxScroll(FarExtent(children, X), innerWidth);
    var maxY := MaxScroll(FarExtent(children, Y), innerHeight);
    Scroll(LowerTo(s.x, maxX), LowerTo(s.y, maxY), maxX, maxY)
  }

  /** The limits of a pass are the formula of the far extent and the viewport. */
  lemma RecalculatedLimits(s: Scroll, children: seq<Rect>, innerWidth: int, innerHeight: int)
    ensures var t := Recalculated(s, children, innerWidth, innerHeight);
      && t.maxX == (if FarExtent(children, X) > innerWidth then FarExtent(children, X) - innerWidth else 0)
      && t.maxY == (if FarExtent(children, Y) > innerHeight then FarExtent(children, Y) - innerHeight else 0)
  {
  }

  /** A pass from non-negative offsets leaves the state within bounds. */
  lemma RecalculatedInBounds(s: Scroll, children: seq<Rect>, innerWidth: int, innerHeight: int)
    requires 0 <= s.x && 0 <= s.y
    ensures InBounds(Recalculated(s, children, innerWidth, innerHeight))
  {
  }

  /** A second pass with the same children and viewport changes nothing. */
  lemma RecalculatedIdempotent(s: Scroll, children: seq<Rect>, innerWidth: int, innerHeight: int)
    ensures var t := Recalculated(s, children, innerWidth, innerHeight);
      Recalculated(t, children, innerWidth, innerHeight) == t
  {
  }

  /** With no children and a non-negative viewport, both limits are 0 and the view returns to the origin. */
  lemma NoChildrenNoScroll(s: Scroll, innerWidth: int, innerHeight: int)
    requires 0 <= innerWidth && 0 <= innerHeight
    requires 0 <= s.x && 0 <= s.y
    ensures Recalculated(s, [], innerWidth, innerHeight) == Scroll(0, 0, 0, 0)
  {
  }

  /** Adding a child anywhere in the list never lowers either limit. */
  lemma AddChildNeverLowersLimits(s: Scroll, children: seq<Rect>, k: nat, child: Rect, innerWidth: int, innerHeight: int)
    requires k <= |children|
    ensures var before := Recalculated(s, children, innerWidth, innerHeight);
      var after := Recalculated(s, children[..k] + [child] + children[k..], innerWidth, innerHeight);
      before.maxX <= after.maxX && before.maxY <= after.maxY
  {
    var more := children[..k] + [child] + children[k..];
    forall i | 0 <= i < |children| ensures children[i] in more {
      if i < k {
        assert more[i] == children[i];
      } else {
        assert more[i + 1] == children[i];
      }
    }
    FarExtentMonotone(children, more, X);
    FarExtentMonotone(children, more, Y);
    MaxScrollMonotone(FarExtent(children, X), FarExtent(more, X), innerWidth);
    MaxScrollMonotone(FarExtent(children, Y), FarExtent(more, Y), innerHeight);
  }

  // ---------------------------------------------------------------------
  // Mode and drag-to-scroll
  // ---------------------------------------------------------------------

  /**
   * Scroll-axis policy. NoScroll stands for every mode value other than the
   * three the drag handler tests for.
   */
  datatype ScrollMode = Vertical | Horizontal | VerticalHorizontal | NoScroll

  /** The mode test of the vertical branch of the drag handler. */
  predicate ScrollsVertically(mode: ScrollMode) {
    mode == Vertical || mode == VerticalHorizontal
  }

  /** The mode test of the horizontal branch of the drag handler. */
  predicate ScrollsHorizontally(mode: ScrollMode) {
    mode == Horizontal || mode == VerticalHorizontal
  }

  /** Previous and current relative position of the first touch point. */
  datatype TouchSample = TouchSample(xRelOld: int, xRel: int, yRelOld: int, yRel: int)

  /** Touch status a callback reports; NotHandled stands for the framework's other statuses, which this widget never reports. */
  datatype TouchStatus = Handled | NotHandled

  /** The state after one drag sample: move each enabled axis, floor it at 0, then recalculate. */
  function AfterTouchMove(s: Scroll, mode: ScrollMode, touch: TouchSample,
                          children: seq<Rect>, innerWidth: int, innerHeight: int): (t: Scroll)
    ensures t.maxX == MaxScroll(FarExtent(children, X), innerWidth)
    ensures t.maxY == MaxScroll(FarExtent(children, Y), innerHeight)
    ensures 0 <= s.x && 0 <= s.y ==> InBounds(t)
  {
    var y := DragAxis(s.y, touch.yRelOld - touch.yRel, ScrollsVertically(mode));
    var x := DragAxis(s.x, touch.xRelOld - touch.xRel, ScrollsHorizontally(mode));
    Recalculated(Scroll(x, y, s.maxX, s.maxY), children, innerWidth, innerHeight)
  }

  /** An enabled axis moves by `old - new`, floored at 0, then lowered to its new limit. */
  lemma TouchMoveEnabledAxes(s: Scroll, mode: ScrollMode, touch: TouchSample,
                             children: seq<Rect>, innerWidth: int, innerHeight: int)
    ensures var t := AfterTouchMove(s, mode, touch, children, innerWidth, innerHeight);
      var movedY := s.y + (touch.yRelOld - touch.yRel);
      var movedX := s.x + (touch.xRelOld - touch.xRel);
      && (ScrollsVertically(mode) ==> t.y == LowerTo(if movedY < 0 then 0 else movedY, t.maxY))
      && (ScrollsHorizontally(mode) ==> t.x == LowerTo(if movedX < 0 then 0 else movedX, t.maxX))
  {
  }

  /**
   * An axis the mode does not enable ignores its delta: two samples that
   * differ in any way give the same offset on it, namely the old offset
   * lowered to the new limit.
   */
  lemma DisabledAxisIgnoresDelta(s: Scroll, mode: ScrollMode, touch: TouchSample, other: TouchSample,
                                 children: seq<Rect>, innerWidth: int, innerHeight: int)
    ensures var t := AfterTouchMove(s, mode, touch, children, innerWidth, innerHeight);
      var u := AfterTouchMove(s, mode, other, children, innerWidth, innerHeight);
      && (!ScrollsHorizontally(mode) ==> t.x == u.x == LowerTo(s.x, t.maxX))
      && (!ScrollsVertically(mode) ==> t.y == u.y == LowerTo(s.y, t.maxY))
  {
  }

  /** In NoScroll mode a drag sample does exactly what a limit pass does. */
  lemma NoScrollTouchMoveIsRecalculation(s: Scroll, touch: TouchSample,
                                         children: seq<Rect>, innerWidth: int, innerHeight: int)
    ensures AfterTouchMove(s, NoScroll, touch, children, innerWidth, innerHeight)
         == Recalculated(s, children, innerWidth, innerHeight)
  {
  }

  // ---------------------------------------------------------------------
  // Sequences of events
  // ---------------------------------------------------------------------

  /** An event that reaches the scroll logic, with the child geometry and viewport current at that moment. */
  datatype Event =
    | DrawEvent(children: seq<Rect>, innerWidth: int, innerHeight: int)
    | TouchMoveEvent(touch: TouchSample, children: seq<Rect>, innerWidth: int, innerHeight: int)

  /** One event: either kind re-derives both limits from the children current at that event. */
  function Step(s: Scroll, mode: ScrollMode, e: Event): (t: Scroll)
    ensures t.maxX == MaxScroll(FarExtent(e.children, X), e.innerWidth)
    ensures t.maxY == MaxScroll(FarExtent(e.children, Y), e.innerHeight)
    ensures 0 <= s.x && 0 <= s.y ==> InBounds(t)
  {
    match e
    case DrawEvent(cs, w, h) => Recalculated(s, cs, w, h)
    case TouchMoveEvent(touch, cs, w, h) => AfterTouchMove(s, mode, touch, cs, w, h)
  }

  /** The state after the events, applied in arrival order. */
  function Run(s: Scroll, mode: ScrollMode, events: seq<Event>): (t: Scroll)
    decreases |events|
  {
    if events == [] then s else Run(Step(s, mode, events[0]), mode, events[1..])
  }

  /** Offsets that start non-negative stay within bounds after any non-empty sequence of events. */
  lemma {:induction false} RunInBounds(s: Scroll, mode: ScrollMode, events: seq<Event>)
    decreases |events|
    requires 0 <= s.x && 0 <= s.y
    requires events != []
    ensures InBounds(Run(s, mode, events))
  {
    var t := Step(s, mode, events[0]);
    assert InBounds(t) by {
      match events[0]
      case DrawEvent(cs, w, h) => RecalculatedInBounds(s, cs, w, h);
      case TouchMoveEvent(touch, cs, w, h) =>
    }
    if events[1..] != [] {
      RunInBounds(t, mode, events[1..]);
    }
  }

  /** In Vertical mode a horizontal offset of 0 stays 0, whatever the horizontal deltas. */
  lemma {:induction false} VerticalModeKeepsX(s: Scroll, events: seq<Event>)
    decreases |events|
    requires s.x == 0
    ensures Run(s, Vertical, events).x == 0
  {
    if events != [] {
      var t := Step(s, Vertical, events[0]);
      assert t.x == 0;
      VerticalModeKeepsX(t, events[1..]);
    }
  }

  /** In Horizontal mode a vertical offset of 0 stays 0, whatever the vertical deltas. */
  lemma {:induction false} HorizontalModeKeepsY(s: Scroll, events: seq<Event>)
    decreases |events|
    requires s.y == 0
    ensures Run(s, Horizontal, events).y == 0
  {
    if events != [] {
      var t := Step(s, Horizontal, events[0]);
      assert t.y == 0;
      HorizontalModeKeepsY(t, events[1..]);
    }
  }

  /** In NoScroll mode no event ever raises an offset. */
  lemma {:induction false} NoScrollNeverRaises(s: Scroll, events: seq<Event>)
    decreases |events|
    ensures Run(s, NoScroll, events).x <= s.x && Run(s, NoScroll, events).y <= s.y
  {
    if events != [] {
      var t := Step(s, NoScroll, events[0]);
      assert t.x <= s.x && t.y <= s.y;
      NoScrollNeverRaises(t, events[1..]);
    }
  }

  // ---------------------------------------------------------------------
  // Worked scenarios
  // ---------------------------------------------------------------------

  /** Viewport 100x100, one child 150 wide and 60 high, both axes: a drag of (20, 5) from the origin ends at (20, 0). */
  lemma ScenarioWideChild()
    ensures var cs := [Rect(0, 0, 150, 60)];
      && Recalculated(Scroll(0, 0, 0, 0), cs, 100, 100) == Scroll(0, 0, 50, 0)
      && AfterTouchMove(Scroll(0, 0, 50, 0), VerticalHorizontal, TouchSample(20, 0, 5, 0), cs, 100, 100)
         == Scroll(20, 0, 50, 0)
  {
  }

  /** A child that fits the viewport allows no scrolling: any drag leaves the view at the origin. */
  lemma ScenarioFittingChild(touch: TouchSample, mode: ScrollMode)
    ensures AfterTouchMove(Scroll(0, 0, 0, 0), mode, touch, [Rect(0, 0, 50, 50)], 100, 100)
         == Scroll(0, 0, 0, 0)
  {
  }

  /** Removing the only wide child re-anchors a horizontal offset of 40 to 0. */
  lemma ScenarioChildRemoved()
    ensures Recalculated(Scroll(40, 0, 50, 0), [], 100, 100) == Scroll(0, 0, 0, 0)
  {
  }

  // ---------------------------------------------------------------------
  // The widget
  // ---------------------------------------------------------------------

  /** Parameter type of the mode setting. */
  const CfgMode: int := 0x01

  /** An ARGB colour value. */
  newtype Color = c: int | 0 <= c < 0x1_0000_0000

  /** The transparent colour; only equality with it matters here. */
  const Transparent: Color := 0

  /** Index of the background colour in the widget's colour table. */
  const BgColorIndex: nat := 0

  class ListContainer {
    var mode: ScrollMode
    var scrollX: int
    var scrollY: int
    var maxScrollX: int
    var maxScrollY: int
    /** Whether a redraw of the parent also redraws this widget. */
    var invalidateWithParent: bool
    /** Colours set on this widget so far, by colour index. */
    var colors: map<nat, Color>

    function View(): (v: Scroll)
      reads this
    {
      Scroll(scrollX, scrollY, maxScrollX, maxScrollY)
    }

    /**
     * Offsets and limits are non-negative. Every state-changing callback keeps
     * this, and after each one the offsets also lie within their limits.
     */
    predicate Valid()
      reads this
    {
      0 <= scrollX && 0 <= scrollY && 0 <= maxScrollX && 0 <= maxScrollY
    }

    constructor (mode: ScrollMode, invalidateWithParent: bool)
      ensures this.mode == mode && this.invalidateWithParent == invalidateWithParent
      ensures View() == Scroll(0, 0, 0, 0) && colors == map[]
      ensures Valid() && InBounds(View())
    {
      this.mode := mode;
      this.invalidateWithParent := invalidateWithParent;
      scrollX, scrollY, maxScrollX, maxScrollY := 0, 0, 0, 0;
      colors := map[];
    }

    /**
     * Scan the children for their farthest right and bottom edges, derive
     * both scroll limits from the viewport, and lower each offset that lies
     * above its new limit.
     */
    method CalculateLimits(children: seq<Rect>, innerWidth: int, innerHeight: int)
      modifies this
      ensures View() == Recalculated(old(View()), children, innerWidth, innerHeight)
      ensures old(Valid()) ==> Valid() && InBounds(View())
      ensures mode == old(mode) && invalidateWithParent == old(invalidateWithParent) && colors == old(colors)
    {
      var cmx, cmy := 0, 0;
      var i := 0;
      while i < |children|
        invariant 0 <= i <= |children|
        invariant cmx == FarExtent(children[..i], X)
        invariant cmy == FarExtent(children[..i], Y)
      {
        var w := children[i];
        assert children[..i + 1][..i] == children[..i];
        if w.x + w.width > cmx {
          cmx := w.x + w.width;
        }
        if w.y + w.height > cmy {
          cmy := w.y + w.height;
        }
        i := i + 1;
      }
      assert children[..i] == children;

      maxScrollX := 0;
      maxScrollY := 0;
      if innerWidth < cmx {
        maxScrollX := cmx - innerWidth;
      }
      if innerHeight < cmy {
        maxScrollY := cmy - innerHeight;
      }

      if scrollX > maxScrollX {
        scrollX := maxScrollX;
      }
      if scrollY > maxScrollY {
        scrollY := maxScrollY;
      }
    }

    /** Parameter setting: the mode parameter stores its value verbatim; every parameter reports 1. */
    method SetParam(paramType: int, value: ScrollMode) returns (processed: bool, result: int)
      modifies this`mode
      ensures processed && result == 1
      ensures mode == if paramType == CfgMode then value else old(mode)
    {
      if paramType == CfgMode {
        mode := value;
      }
      result := 1;
      processed := true;
    }

    /** Draw pass: recalculate the limits (the filled background rectangle is not modelled). */
    method Draw(children: seq<Rect>, innerWidth: int, innerHeight: int) returns (processed: bool)
      modifies this
      ensures processed
      ensures View() == Recalculated(old(View()), children, innerWidth, innerHeight)
      ensures old(Valid()) ==> Valid() && InBounds(View())
      ensures mode == old(mode) && invalidateWithParent == old(invalidateWithParent) && colors == old(colors)
    {
      CalculateLimits(children, innerWidth, innerHeight);
      processed := true;
    }

    /** Start of a touch: always claimed, nothing changes. */
    method TouchStart() returns (processed: bool, status: TouchStatus)
      ensures processed && status == Handled
    {
      status := Handled;
      processed := true;
    }

    /** One drag sample: move the enabled axes, floor them at 0, then recalculate the limits. */
    method TouchMove(touch: TouchSample, children: seq<Rect>, innerWidth: int, innerHeight: int)
      returns (processed: bool, status: TouchStatus)
      modifies this
      ensures processed && status == Handled
      ensures View() == AfterTouchMove(old(View()), old(mode), touch, children, innerWidth, innerHeight)
      ensures old(Valid()) ==> Valid() && InBounds(View())
      ensures mode == old(mode) && invalidateWithParent == old(invalidateWithParent) && colors == old(colors)
    {
      status := Handled;
      if ScrollsVertically(mode) {
        scrollY := scrollY + (touch.yRelOld - touch.yRel);
        if scrollY < 0 {
          scrollY := 0;
        }
      }
      if ScrollsHorizontally(mode) {
        scrollX := scrollX + (touch.xRelOld - touch.xRel);
        if scrollX < 0 {
          scrollX := 0;
        }
      }
      CalculateLimits(children, innerWidth, innerHeight);
      processed := true;
    }

    /**
     * Set a colour. `stored` is the outcome of the framework's colour store,
     * which receives the index cast to 8 bits; the background test uses the
     * index as given. A stored background colour links invalidation to the
     * parent exactly when it is transparent.
     */
    method SetColor(index: nat, color: Color, stored: bool) returns (ok: bool)
      modifies this`colors, this`invalidateWithParent
      ensures ok == stored
      ensures colors == if stored then old(colors)[index % 256 := color] else old(colors)
      ensures invalidateWithParent ==
        if stored && index == BgColorIndex then color == Transparent else old(invalidateWithParent)
    {
      if stored {
        colors := colors[index % 256 := color];
      }
      ok := stored;
      if ok && index == BgColorIndex {
        invalidateWithParent := color == Transparent;
      }
    }

    /** Set the scroll mode through the parameter setter; reports its result. */
    method SetMode(newMode: ScrollMode) returns (result: int)
      modifies this`mode
      ensures mode == newMode && result == 1
    {
      var _, r := SetParam(CfgMode, newMode);
      result := r;
    }
  }
}
